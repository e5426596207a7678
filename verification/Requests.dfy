/** The identity of a request under an idempotency key
    (internal/api/server.go:354-365, internal/queue/task.go:53-62). */
module Requests {

  /** JSON text holds no raw NUL (section 7 of RFC 8259): inside strings control
      characters are escaped. */
  type JsonText = s: string | '\0' !in s witness "{}"

  /** What the digest is taken over: verb, canonical arguments and stdin, with a
      NUL after each of the first two. SHA-256 is taken as collision-free, so
      the text stands for its digest. */
  function RequestHash(verb: string, args: JsonText, stdin: string): string {
    verb + "\0" + args + "\0" + stdin
  }

  /** For one verb, two requests have the same digest only if they are equal. */
  lemma HashIdentifies(verb: string, a1: JsonText, s1: string, a2: JsonText, s2: string)
    ensures RequestHash(verb, a1, s1) == RequestHash(verb, a2, s2) <==> a1 == a2 && s1 == s2
  {
    if RequestHash(verb, a1, s1) == RequestHash(verb, a2, s2) {
      var n := |verb| + 1;
      assert RequestHash(verb, a1, s1)[n..] == a1 + "\0" + s1;
      assert RequestHash(verb, a2, s2)[n..] == a2 + "\0" + s2;
      FirstNulSplits(a1, s1, a2, s2);
    }
  }

  lemma FirstNulSplits(a1: JsonText, s1: string, a2: JsonText, s2: string)
    requires a1 + "\0" + s1 == a2 + "\0" + s2
    ensures a1 == a2 && s1 == s2
  {
    var x, y := a1 + "\0" + s1, a2 + "\0" + s2;
    assert x[|a1|] == '\0' && y[|a2|] == '\0';
    assert forall i :: 0 <= i < |a1| ==> x[i] == a1[i] != '\0';
    assert forall i :: 0 <= i < |a2| ==> y[i] == a2[i] != '\0';
    assert |a1| == |a2|;
    assert a1 == x[..|a1|] && a2 == y[..|a2|];
    assert s1 == x[|a1| + 1..] && s2 == y[|a2| + 1..];
  }

  /** Without the separate test on the verb the digest would not identify the
      request: a verb name may itself hold a NUL. */
  lemma HashAloneDoesNotIdentifyTheVerb()
    ensures RequestHash("v", "{}", "{}\0x") == RequestHash("v\0{}", "{}", "x")
  {
    assert RequestHash("v", "{}", "{}\0x") == "v\0{}\0{}\0x";
    assert RequestHash("v\0{}", "{}", "x") == "v\0{}\0{}\0x";
  }

  /** A key bound to the task made for it. */
  datatype Binding = Binding(verb: string, hash: string, taskId: string)
}
