/** What soundness assumes of a signature, and that it can be met, so that what is proved under it is about something. */
module Assumptions {
  import opened Bytes
  import opened BrokerPath

  /** The signature made for text `n` verifies for no other text. */
  ghost predicate Binding(k: Crypto, n: Text) {
    forall m :: k.verifies(m, k.sign(n)) ==> m == n
  }

  function SignatureOf(n: Text, m: Text): (s: Text)
    ensures |s| == 64 && (s[0] == 1 <==> m == n)
  {
    if m == n then seq(64, i => 1) else seq(64, i => 0)
  }

  /** A scheme that tells one text from all others. */
  function SchemeFor(n: Text): Crypto {
    Crypto(p => seq(32, i => 0), m => SignatureOf(n, m), (m, s) => s == SignatureOf(n, m))
  }

  /**
   Both assumptions hold of it, for the signature of that text. No scheme meets the second for all texts
   at once: there are only finitely many signatures.
   */
  lemma BindingMet(n: Text)
    ensures Correct(SchemeFor(n)) && Binding(SchemeFor(n), n)
  {
    hide SignatureOf;
    var k := SchemeFor(n);
    forall m | k.verifies(m, k.sign(n)) ensures m == n {
      assert SignatureOf(n, m) == SignatureOf(n, n);
    }
  }
}
