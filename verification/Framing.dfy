/** Joining two strings with a NUL, and getting them back. */
module Framing {

  predicate NulFree(s: string) {
    forall i :: 0 <= i < |s| ==> s[i] != '\0'
  }

  function Framed(head: string, tail: string): string {
    head + "\0" + tail
  }

  function FirstNul(s: string): nat {
    if s == [] || s[0] == '\0' then 0 else 1 + FirstNul(s[1..])
  }

  lemma {:induction false} FirstNulEndsTheHead(head: string, tail: string)
    requires NulFree(head)
    ensures FirstNul(Framed(head, tail)) == |head|
  {
    if head != [] {
      FirstNulEndsTheHead(head[1..], tail);
      assert Framed(head, tail)[1..] == Framed(head[1..], tail);
    }
  }

  /** With a NUL-free head the frame is unambiguous, whatever the tail holds. */
  lemma FramesAreInjective(a: string, x: string, b: string, y: string)
    requires NulFree(a) && NulFree(b)
    ensures Framed(a, x) == Framed(b, y) <==> a == b && x == y
  {
    if Framed(a, x) == Framed(b, y) {
      FirstNulEndsTheHead(a, x);
      FirstNulEndsTheHead(b, y);
      assert a == Framed(a, x)[..|a|] && b == Framed(b, y)[..|b|];
      assert x == Framed(a, x)[|a| + 1..] && y == Framed(b, y)[|b| + 1..];
    }
  }
}
