/** The pure part of src/pixiv_handler.rs: the range check on the
    `amount_to_search` setting. The calls into the Python helper are oracle
    parameters of the `AppData` methods (module Data). */
module PixivHandler {
  import opened Types
  import opened Text

  const MAX_AMOUNT_TO_SEARCH: nat := 1020

  /** `check_amount_to_search_validity`: an i16 in 0..=1020. */
  predicate CheckAmountToSearchValidity(amountToSearch: string) {
    match ParseI16(amountToSearch)
    case None => false
    case Some(num) => !(num < 0 || num > MAX_AMOUNT_TO_SEARCH)
  }

  /** The accepted strings, described by their characters: an optional sign,
      then at least one digit, with a value of at most 1020; the sign may be
      '-' only when the value is 0. */
  lemma {:induction false} AmountValidForm(s: string)
    ensures CheckAmountToSearchValidity(s) <==>
              var signed := |s| > 0 && (s[0] == '+' || s[0] == '-');
              var body := if signed then s[1..] else s;
              && |body| > 0 && AllDigits(body)
              && DigitsValue(body) <= MAX_AMOUNT_TO_SEARCH
              && (signed && s[0] == '-' ==> DigitsValue(body) == 0)
  {
  }

  /** A printed number is accepted exactly when it is at most 1020: the
      bound itself is allowed. */
  lemma AmountValidOfNumber(n: nat)
    ensures CheckAmountToSearchValidity(NatToString(n)) <==> n <= MAX_AMOUNT_TO_SEARCH
  {
    var s := NatToString(n);
    assert s[0] != '+' && s[0] != '-' by { assert IsDigit(s[0]); }
  }

  /** The default setting passes the check. */
  lemma DefaultAmountIsValid()
    ensures CheckAmountToSearchValidity(DEFAULT_AMOUNT_TO_SEARCH)
  {
    AmountValidOfNumber(210);
    assert NatToString(210) == "210";
  }

  /** The bound itself is accepted and one more is not. */
  lemma AmountBoundExamples()
    ensures CheckAmountToSearchValidity("1020") && !CheckAmountToSearchValidity("1021")
  {
    AmountValidOfNumber(1020);
    AmountValidOfNumber(1021);
    assert NatToString(1020) == "1020";
    assert NatToString(1021) == "1021";
  }

  /** "-0" is accepted, "-1", the empty string and a leading space are not. */
  lemma AmountSignExamples()
    ensures CheckAmountToSearchValidity("-0") && !CheckAmountToSearchValidity("-1")
    ensures !CheckAmountToSearchValidity("") && !CheckAmountToSearchValidity(" 5")
  {
    assert ("-0")[1..] == "0";
    assert ("-1")[1..] == "1";
    assert !IsDigit(' ');
  }
}
