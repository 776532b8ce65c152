/** The prediction endpoint.

    A loan request is turned into an eleven-slot feature vector: yes/no
    fields become 1 or 0 by exact string comparison, the number of
    dependents is read as an integer once trailing '+' signs are removed,
    the property area becomes an ordinal, and the amounts pass through. The
    loaded classifier's first prediction decides the reply. The classifier
    is a parameter; loading it from its pickle file is not modelled. */
module Serving {
  import opened Errors

  /** The request body, field for field. */
  datatype LoanData = LoanData(
    gender: string,
    married: string,
    dependents: string,
    education: string,
    selfEmployed: string,
    applicantIncome: real,
    coapplicantIncome: real,
    loanAmount: real,
    loanAmountTerm: real,
    creditHistory: string,
    propertyArea: string)

  const HomeMessage: string := "Check you are eligible for Loan or Not!"
  const ApprovedMessage: string := "Congratulations! Your loan application is Approved."
  const RejectedMessage: string := "Sorry, your loan application is Rejected."

  /** The reply of the `/` route. */
  function Home(): (msg: string)
    ensures msg == HomeMessage && msg != ApprovedMessage && msg != RejectedMessage
  {
    HomeMessage
  }

  // ---------------------------------------------------------------------
  // Field encoders

  /** `1 if value == expected else 0`: an exact, case-sensitive match. */
  function Flag(value: string, expected: string): (r: real)
    ensures r == 1.0 <==> value == expected
    ensures r == 0.0 <==> value != expected
  {
    if value == expected then 1.0 else 0.0
  }

  /** `property_area`: Urban is 1, Semiurban is 2, anything else 0. */
  function PropertyAreaCode(area: string): (r: real)
    ensures r == 0.0 || r == 1.0 || r == 2.0
    ensures r == 1.0 <==> area == "Urban"
    ensures r == 2.0 <==> area == "Semiurban"
  {
    if area == "Urban" then 1.0 else if area == "Semiurban" then 2.0 else 0.0
  }

  /** `s.rstrip(c)` with a single character: removes every trailing `c`. */
  function RStrip(s: string, c: char): (r: string)
    ensures r <= s
    ensures |r| == 0 || r[|r| - 1] != c
    ensures forall i :: |r| <= i < |s| ==> s[i] == c
    decreases |s|
  {
    if |s| > 0 && s[|s| - 1] == c then RStrip(s[..|s| - 1], c) else s
  }

  /** The three properties of `RStrip` pin its result down: no other prefix
      has them. */
  lemma RStripUnique(s: string, c: char, p: string)
    requires p <= s
    requires |p| == 0 || p[|p| - 1] != c
    requires forall i :: |p| <= i < |s| ==> s[i] == c
    ensures p == RStrip(s, c)
  {
  }

  /** Stripping twice strips nothing more. */
  lemma RStripIdempotent(s: string, c: char)
    ensures RStrip(RStrip(s, c), c) == RStrip(s, c)
  {
    var r := RStrip(s, c);
    RStripUnique(r, c, r);
  }

  predicate IsDigit(ch: char) {
    '0' <= ch <= '9'
  }

  /** The value of a string of decimal digits. */
  function DigitsValue(s: string): nat
    requires forall i :: 0 <= i < |s| ==> IsDigit(s[i])
  {
    if |s| == 0 then 0
    else
      assert IsDigit(s[|s| - 1]);
      10 * DigitsValue(s[..|s| - 1]) + (s[|s| - 1] as int - '0' as int)
  }

  /** `int(s)` on the inputs modelled: a non-empty run of ASCII digits, with
      leading zeros allowed. The model rejects anything else; Python also
      accepts surrounding whitespace, a sign and underscores. */
  function ParseInt(s: string): (r: Result<int>)
    ensures r.Ok? <==> |s| > 0 && forall i :: 0 <= i < |s| ==> IsDigit(s[i])
    ensures r.Ok? ==> r.value >= 0
  {
    if |s| > 0 && forall i :: 0 <= i < |s| ==> IsDigit(s[i]) then Ok(DigitsValue(s))
    else Err(Failure("invalid literal for int() with base 10"))
  }

  /** The decimal text of a number, as `str(n)` writes it. */
  function ShowNat(n: nat): (s: string)
    ensures |s| > 0 && forall i :: 0 <= i < |s| ==> IsDigit(s[i])
  {
    if n < 10 then [('0' as int + n) as char]
    else ShowNat(n / 10) + [('0' as int + n % 10) as char]
  }

  /** Reading back the decimal text of a number gives the number. */
  lemma {:induction false} ParseShowNat(n: nat)
    ensures DigitsValue(ShowNat(n)) == n
    ensures ParseInt(ShowNat(n)).Ok? && ParseInt(ShowNat(n)).value == n
    decreases n
  {
    var s := ShowNat(n);
    if n < 10 {
      assert s[..|s| - 1] == [];
      assert s[0] as int == '0' as int + n;
    } else {
      ParseShowNat(n / 10);
      assert s[..|s| - 1] == ShowNat(n / 10);
      assert s[|s| - 1] as int - '0' as int == n % 10;
    }
    assert ParseInt(s) == Ok(DigitsValue(s));
  }

  /** `s` is `k` digits followed only by '+' signs, with at least one digit. */
  predicate DigitsThenPlus(s: string, k: int) {
    && 0 < k <= |s|
    && (forall i :: 0 <= i < k ==> IsDigit(s[i]))
    && (forall i :: k <= i < |s| ==> s[i] == '+')
  }

  /** What `int(s.rstrip("+"))` accepts: a count followed by any number of
      '+' signs, and nothing else. */
  lemma {:induction false} StrippedParses(s: string)
    ensures ParseInt(RStrip(s, '+')).Ok? <==> exists k :: DigitsThenPlus(s, k)
    ensures forall k :: DigitsThenPlus(s, k) ==> RStrip(s, '+') == s[..k]
  {
    var r := RStrip(s, '+');
    forall k | DigitsThenPlus(s, k)
      ensures r == s[..k]
    {
      assert IsDigit(s[k - 1]);
      RStripUnique(s, '+', s[..k]);
    }
    if ParseInt(r).Ok? {
      assert DigitsThenPlus(s, |r|);
    }
  }

  /** `int(dependents.rstrip("+"))`: a count followed by '+' signs reads as
      the count; anything else raises. */
  function ParseDependents(dependents: string): (r: Result<int>)
    ensures r.Ok? <==> exists k :: DigitsThenPlus(dependents, k)
    ensures forall k :: DigitsThenPlus(dependents, k) ==> r == Ok(DigitsValue(dependents[..k]))
  {
    StrippedParses(dependents);
    ParseInt(RStrip(dependents, '+'))
  }

  /** Any number of trailing '+' signs after a count is ignored, and a
      count written with '+' reads the same as the count alone. */
  lemma DependentsIgnoresTrailingPlus(n: nat, plus: string)
    requires forall i :: 0 <= i < |plus| ==> plus[i] == '+'
    ensures ParseDependents(ShowNat(n) + plus) == Ok(n)
  {
    var s := ShowNat(n);
    ParseShowNat(n);
    RStripUnique(s + plus, '+', s);
  }

  /** What remains after the '+' signs must be all digits: "3+" reads 3,
      "2" reads 2, while "+", "" and "1+2" raise. */
  lemma DependentsExamples()
    ensures ParseDependents("3+") == Ok(3)
    ensures ParseDependents("2") == Ok(2)
    ensures ParseDependents("+").Err?
    ensures ParseDependents("").Err?
    ensures ParseDependents("1+2").Err?
  {
    DependentsIgnoresTrailingPlus(3, "+");
    DependentsIgnoresTrailingPlus(2, "");
    assert RStrip("1+2", '+') == "1+2";
    assert !IsDigit("1+2"[1]);
  }

  // ---------------------------------------------------------------------
  // The request

  /** The eleven slots, in the order the model was fed: gender, married,
      dependents, education, self_employed, applicant_income,
      coapplicant_income, loan_amount, loan_amount_term, credit_history,
      property_area. numpy stores them all as floats. */
  function EncodeFeatures(d: LoanData): (r: Result<seq<real>>)
    ensures r.Ok? <==> ParseDependents(d.dependents).Ok?
    ensures r.Ok? ==> |r.value| == 11
    ensures r.Ok? ==> r.value[0] == (if d.gender == "Male" then 1.0 else 0.0)
    ensures r.Ok? ==> r.value[1] == (if d.married == "Married" then 1.0 else 0.0)
    ensures r.Ok? ==> r.value[2] == ParseDependents(d.dependents).value as real
    ensures r.Ok? ==> r.value[3] == (if d.education == "Graduate" then 1.0 else 0.0)
    ensures r.Ok? ==> r.value[4] == (if d.selfEmployed == "Yes" then 1.0 else 0.0)
    ensures r.Ok? ==> r.value[5..9] == [d.applicantIncome, d.coapplicantIncome, d.loanAmount, d.loanAmountTerm]
    ensures r.Ok? ==> r.value[9] == (if d.creditHistory == "Yes" then 1.0 else 0.0)
    ensures r.Ok? ==> r.value[10] == PropertyAreaCode(d.propertyArea)
  {
    var dependents :- ParseDependents(d.dependents);
    Ok([Flag(d.gender, "Male"), Flag(d.married, "Married"), dependents as real,
        Flag(d.education, "Graduate"), Flag(d.selfEmployed, "Yes"),
        d.applicantIncome, d.coapplicantIncome, d.loanAmount, d.loanAmountTerm,
        Flag(d.creditHistory, "Yes"), PropertyAreaCode(d.propertyArea)])
  }

  /** The loaded classifier: `predict` on a batch of feature rows. */
  type Classifier = seq<seq<real>> -> Result<seq<real>>

  /** `check_loan_status`: encode, predict on a one-row batch, and answer by
      the first prediction; an empty prediction raises IndexError. */
  function CheckLoanStatus(classifier: Classifier, d: LoanData): (r: Result<string>)
    ensures r.Ok? ==> r.value == ApprovedMessage || r.value == RejectedMessage
  {
    var features :- EncodeFeatures(d);
    var prediction :- classifier([features]);
    if |prediction| == 0 then Err(Failure("index 0 is out of bounds for axis 0 with size 0"))
    else if prediction[0] == 1.0 then Ok(ApprovedMessage)
    else Ok(RejectedMessage)
  }

  /** The reply is the approval exactly when the classifier's first
      prediction for the encoded request is 1, and the rejection exactly
      when there is a first prediction and it is anything else. */
  lemma ApprovedIffPredictionIsOne(classifier: Classifier, d: LoanData)
    ensures CheckLoanStatus(classifier, d) == Ok(ApprovedMessage) <==>
            EncodeFeatures(d).Ok? && classifier([EncodeFeatures(d).value]).Ok? &&
            |classifier([EncodeFeatures(d).value]).value| > 0 && classifier([EncodeFeatures(d).value]).value[0] == 1.0
    ensures CheckLoanStatus(classifier, d) == Ok(RejectedMessage) <==>
            EncodeFeatures(d).Ok? && classifier([EncodeFeatures(d).value]).Ok? &&
            |classifier([EncodeFeatures(d).value]).value| > 0 && classifier([EncodeFeatures(d).value]).value[0] != 1.0
  {
    assert ApprovedMessage != RejectedMessage by {
      assert |ApprovedMessage| != |RejectedMessage|;
    }
  }

  /** The example request of the schema encodes to
      [1, 1, 2, 1, 0, 5000, 3000, 10000, 12, 1, 1]. */
  lemma SchemaExampleEncoding()
    ensures EncodeFeatures(LoanData("Male", "Married", "2", "Graduate", "No", 5000.0, 3000.0, 10000.0, 12.0, "Yes", "Urban"))
            == Ok([1.0, 1.0, 2.0, 1.0, 0.0, 5000.0, 3000.0, 10000.0, 12.0, 1.0, 1.0])
  {
    DependentsIgnoresTrailingPlus(2, "");
    assert "No" != "Yes";
  }

  /** Matching is case-sensitive and exact: "Female" and "male" both give 0
      for gender, and "Rural" gives 0 for the property area. */
  lemma FlagExamples()
    ensures Flag("Female", "Male") == 0.0 && Flag("male", "Male") == 0.0 && Flag("Male", "Male") == 1.0
    ensures PropertyAreaCode("Rural") == 0.0
  {
    assert "Female" != "Male";
    assert "male"[0] != "Male"[0];
    assert "Rural" != "Urban" && "Rural" != "Semiurban";
  }
}
