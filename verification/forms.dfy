/** What the creation forms share: a validation verdict that carries the
    first failing check's message, the outcome of a submit (the next form
    state and the document handed to the write, if one was attempted), and
    business codes built from a millisecond timestamp.
 */
module Forms {
  import opened Wrappers
  import opened Text

  datatype Verdict = Valid | Invalid(message: string)

  /** `addDoc` either stores the document or throws. */
  datatype WriteOutcome = Written | WriteFailed(error: string)

  datatype Submitted<F, D> = Submitted(form: F, write: Option<D>)

  /** `${prefix}${Date.now()}`. */
  function Code(prefix: string, ts: nat): (c: string)
    ensures |c| > |prefix| && c[..|prefix|] == prefix
    ensures IsDigitString(c[|prefix|..])
    ensures ParseDecimal(c[|prefix|..]) == ts
  {
    assert (prefix + Decimal(ts))[|prefix|..] == Decimal(ts);
    DecimalRoundTrip(ts);
    prefix + Decimal(ts)
  }

  /** Distinct timestamps give distinct codes. */
  lemma CodeInjective(prefix: string, a: nat, b: nat)
    ensures Code(prefix, a) == Code(prefix, b) ==> a == b
  {
    if Code(prefix, a) == Code(prefix, b) {
      assert Code(prefix, a)[|prefix|..] == Decimal(a);
      assert Code(prefix, b)[|prefix|..] == Decimal(b);
      DecimalInjective(a, b);
    }
  }
}
