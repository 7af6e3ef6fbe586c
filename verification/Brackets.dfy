/** The bracket and quote checker for generated diagrams, against the grammar it decides. */
module Brackets {

  predicate IsOpen(c: char) {
    c == '(' || c == '[' || c == '{'
  }

  predicate IsClose(c: char) {
    c == ')' || c == ']' || c == '}'
  }

  function Closer(open: char): char
    requires IsOpen(open)
  {
    if open == '(' then ')' else if open == '[' then ']' else '}'
  }

  datatype Verdict = Balanced | Unbalanced(c: char) | UnclosedQuote | Unclosed(c: char)

  predicate Matches(stack: seq<char>, close: char) {
    |stack| > 0 && IsOpen(stack[|stack| - 1]) && Closer(stack[|stack| - 1]) == close
  }

  /** The verdict on the rest of a text, given the brackets still open and whether a quote is. */
  function Scan(text: string, stack: seq<char>, inQuote: bool): Verdict {
    if text == [] then
      if inQuote then UnclosedQuote else if |stack| > 0 then Unclosed(stack[|stack| - 1]) else Balanced
    else
      var r, rest := text[0], text[1..];
      if r == '"' then Scan(rest, stack, !inQuote)
      else if inQuote then Scan(rest, stack, inQuote)
      else if IsOpen(r) then Scan(rest, stack + [r], inQuote)
      else if IsClose(r) then
        if Matches(stack, r) then Scan(rest, stack[..|stack| - 1], inQuote) else Unbalanced(r)
      else Scan(rest, stack, inQuote)
  }

  method Check(content: string) returns (v: Verdict)
    ensures v == Scan(content, [], false)
  {
    var stack: seq<char> := [];
    var pairs := map[')' := '(', ']' := '[', '}' := '{'];
    var inQuote := false;
    for i := 0 to |content|
      invariant forall c :: c in stack ==> IsOpen(c)
      invariant Scan(content, [], false) == Scan(content[i..], stack, inQuote)
    {
      var r := content[i];
      assert content[i..][1..] == content[i + 1..];
      if r == '"' {
        inQuote := !inQuote;
        continue;
      }
      if inQuote {
        continue;
      }
      if IsOpen(r) {
        stack := stack + [r];
      } else if IsClose(r) {
        if |stack| == 0 || stack[|stack| - 1] != pairs[r] {
          return Unbalanced(r);
        }
        stack := stack[..|stack| - 1];
      }
    }
    if inQuote {
      return UnclosedQuote;
    }
    if |stack| > 0 {
      return Unclosed(stack[|stack| - 1]);
    }
    return Balanced;
  }

  // ---- The grammar: S -> empty | S S | ( S ) | [ S ] | { S }

  datatype Tree = Empty | Both(left: Tree, right: Tree) | Wrapped(open: char, inner: Tree)

  predicate WellMade(t: Tree) {
    match t
    case Empty => true
    case Both(l, r) => WellMade(l) && WellMade(r)
    case Wrapped(o, s) => IsOpen(o) && WellMade(s)
  }

  function Yield(t: Tree): string
    requires WellMade(t)
  {
    match t
    case Empty => []
    case Both(l, r) => Yield(l) + Yield(r)
    case Wrapped(o, s) => [o] + Yield(s) + [Closer(o)]
  }

  ghost predicate Derivable(brackets: string) {
    exists t :: WellMade(t) && Yield(t) == brackets
  }

  /** The brackets of a text that stand outside double quotes. */
  function Outside(text: string, inQuote: bool): string {
    if text == [] then []
    else if text[0] == '"' then Outside(text[1..], !inQuote)
    else if !inQuote && (IsOpen(text[0]) || IsClose(text[0])) then [text[0]] + Outside(text[1..], inQuote)
    else Outside(text[1..], inQuote)
  }

  function Quotes(text: string): nat {
    if text == [] then 0 else (if text[0] == '"' then 1 else 0) + Quotes(text[1..])
  }

  predicate AllOpen(stack: seq<char>) {
    forall i :: 0 <= i < |stack| ==> IsOpen(stack[i])
  }

  lemma {:induction false} ScanSeesOnlyTheBrackets(text: string, stack: seq<char>, inQuote: bool)
    requires AllOpen(stack)
    ensures Scan(text, stack, inQuote).Balanced? <==>
            Scan(Outside(text, inQuote), stack, false).Balanced? && (Quotes(text) % 2 == 1) == inQuote
  {
    if text != [] {
      var r, rest := text[0], text[1..];
      if r == '"' {
        ScanSeesOnlyTheBrackets(rest, stack, !inQuote);
      } else if inQuote || (!IsOpen(r) && !IsClose(r)) {
        ScanSeesOnlyTheBrackets(rest, stack, inQuote);
      } else {
        var tail := Outside(rest, false);
        assert ([r] + tail)[1..] == tail;
        if IsOpen(r) {
          ScanSeesOnlyTheBrackets(rest, stack + [r], false);
        } else if Matches(stack, r) {
          ScanSeesOnlyTheBrackets(rest, stack[..|stack| - 1], false);
        }
      }
    }
  }

  /** Anything the grammar derives passes through the scanner and leaves the stack as it was. */
  lemma {:induction false} DerivedTextIsTransparent(t: Tree, rest: string, stack: seq<char>)
    requires WellMade(t)
    ensures Scan(Yield(t) + rest, stack, false) == Scan(rest, stack, false)
  {
    match t
    case Empty =>
      assert [] + rest == rest;
    case Both(l, r) =>
      assert Yield(t) + rest == Yield(l) + (Yield(r) + rest);
      DerivedTextIsTransparent(l, Yield(r) + rest, stack);
      DerivedTextIsTransparent(r, rest, stack);
    case Wrapped(o, s) =>
      var close := [Closer(o)] + rest;
      var whole := Yield(t) + rest;
      assert whole[0] == o && whole[1..] == Yield(s) + close;
      DerivedTextIsTransparent(s, close, stack + [o]);
      assert close[1..] == rest;
      assert (stack + [o])[..|stack|] == stack;
  }

  ghost predicate Forest(trees: seq<Tree>) {
    forall i :: 0 <= i < |trees| ==> WellMade(trees[i])
  }

  /** What must follow when some brackets are open: a derived piece, the innermost closer, and so on out. */
  function Weave(t: Tree, outer: seq<Tree>, stack: seq<char>): string
    requires WellMade(t) && Forest(outer) && AllOpen(stack) && |outer| == |stack|
    decreases |stack|, 1
  {
    Yield(t) + Closing(outer, stack)
  }

  function Closing(outer: seq<Tree>, stack: seq<char>): string
    requires Forest(outer) && AllOpen(stack) && |outer| == |stack|
    decreases |stack|, 0
  {
    if stack == [] then []
    else [Closer(stack[|stack| - 1])] + Weave(outer[0], outer[1..], stack[..|stack| - 1])
  }

  lemma Regroup(a: string, b: string, c: string, d: string, e: string)
    ensures (a + b + c + d) + e == a + (b + (c + (d + e)))
  {
  }

  lemma WeaveAnOpening(r: char, inner: Tree, after: seq<Tree>, stack: seq<char>)
    requires IsOpen(r) && WellMade(inner) && Forest(after)
    requires AllOpen(stack) && |after| == |stack| + 1
    ensures AllOpen(stack + [r])
    ensures Weave(Both(Wrapped(r, inner), after[0]), after[1..], stack) == [r] + Weave(inner, after, stack + [r])
  {
    var next, close := Yield(after[0]), Closing(after[1..], stack);
    ClosingAnOpening(r, after, stack);
    assert Yield(Both(Wrapped(r, inner), after[0])) == [r] + Yield(inner) + [Closer(r)] + next;
    hide Yield, Closing, WellMade;
    Regroup([r], Yield(inner), [Closer(r)], next, close);
  }

  lemma ClosingAnOpening(r: char, after: seq<Tree>, stack: seq<char>)
    requires IsOpen(r) && Forest(after) && AllOpen(stack) && |after| == |stack| + 1
    ensures Closing(after, stack + [r]) == [Closer(r)] + (Yield(after[0]) + Closing(after[1..], stack))
  {
    assert (stack + [r])[..|stack|] == stack;
  }

  lemma {:induction false} AcceptedTextIsDerived(b: string, stack: seq<char>) returns (t: Tree, outer: seq<Tree>)
    requires AllOpen(stack) && (forall i :: 0 <= i < |b| ==> IsOpen(b[i]) || IsClose(b[i]))
    requires Scan(b, stack, false).Balanced?
    ensures WellMade(t) && Forest(outer) && |outer| == |stack|
    ensures b == Weave(t, outer, stack)
    decreases |b|
  {
    if b == [] {
      return Empty, [];
    }
    var r, rest := b[0], b[1..];
    if IsOpen(r) {
      var inner, after := AcceptedTextIsDerived(rest, stack + [r]);
      t, outer := Both(Wrapped(r, inner), after[0]), after[1..];
      WeaveAnOpening(r, inner, after, stack);
      assert b == [r] + rest;
    } else {
      var next, beyond := AcceptedTextIsDerived(rest, stack[..|stack| - 1]);
      t, outer := Empty, [next] + beyond;
      assert outer[1..] == beyond;
      assert b == [r] + rest;
      assert Weave(t, outer, stack) == [r] + Weave(next, beyond, stack[..|stack| - 1]);
    }
  }

  lemma {:induction false} OutsideIsBrackets(text: string, inQuote: bool)
    ensures forall i :: 0 <= i < |Outside(text, inQuote)| ==>
      IsOpen(Outside(text, inQuote)[i]) || IsClose(Outside(text, inQuote)[i])
  {
    if text != [] {
      OutsideIsBrackets(text[1..], if text[0] == '"' then !inQuote else inQuote);
    }
  }

  /** The checker is exact: it accepts a text iff its quotes pair up and its unquoted brackets derive from S. */
  lemma CheckIsExact(content: string)
    ensures Scan(content, [], false).Balanced? <==> Quotes(content) % 2 == 0 && Derivable(Outside(content, false))
  {
    var b := Outside(content, false);
    ScanSeesOnlyTheBrackets(content, [], false);
    if Scan(b, [], false).Balanced? {
      OutsideIsBrackets(content, false);
      var t, outer := AcceptedTextIsDerived(b, []);
      assert Yield(t) == b;
    }
    if Derivable(b) {
      var t :| WellMade(t) && Yield(t) == b;
      DerivedTextIsTransparent(t, [], []);
      assert Yield(t) + [] == b;
    }
  }

  // ---- The error comes at the first hopeless character

  ghost predicate Completes(text: string, more: string, stack: seq<char>, inQuote: bool) {
    Scan(text + more, stack, inQuote).Balanced?
  }

  ghost predicate Hopeless(text: string, stack: seq<char>, inQuote: bool) {
    forall more :: !Completes(text, more, stack, inQuote)
  }

  lemma {:induction false} Completable(text: string, stack: seq<char>, inQuote: bool) returns (more: string)
    requires AllOpen(stack) && !Scan(text, stack, inQuote).Unbalanced?
    ensures Completes(text, more, stack, inQuote)
    decreases |text|, |stack|, inQuote
  {
    if text != [] {
      var r, rest := text[0], text[1..];
      if r == '"' {
        more := Completable(rest, stack, !inQuote);
      } else if inQuote || (!IsOpen(r) && !IsClose(r)) {
        more := Completable(rest, stack, inQuote);
      } else if IsOpen(r) {
        more := Completable(rest, stack + [r], inQuote);
      } else {
        more := Completable(rest, stack[..|stack| - 1], inQuote);
      }
      assert (text + more)[1..] == rest + more;
    } else if inQuote {
      var closing := Completable([], stack, false);
      more := ['"'] + closing;
      assert [] + closing == closing && text + more == more && more[1..] == closing;
    } else if stack != [] {
      var closing := Completable([], stack[..|stack| - 1], false);
      more := [Closer(stack[|stack| - 1])] + closing;
      assert [] + closing == closing && text + more == more && more[1..] == closing;
    } else {
      more := [];
    }
  }

  /** The scanner's state after one character, when that character is not rejected. */
  function After(r: char, stack: seq<char>, inQuote: bool): (seq<char>, bool) {
    if r == '"' then (stack, !inQuote)
    else if inQuote then (stack, inQuote)
    else if IsOpen(r) then (stack + [r], inQuote)
    else if Matches(stack, r) then (stack[..|stack| - 1], inQuote)
    else (stack, inQuote)
  }

  predicate Rejects(r: char, stack: seq<char>, inQuote: bool) {
    r != '"' && !inQuote && IsClose(r) && !Matches(stack, r)
  }

  lemma ScanOneMore(r: char, t: string, stack: seq<char>, inQuote: bool)
    ensures var (stack', inQuote') := After(r, stack, inQuote);
            && (AllOpen(stack) ==> AllOpen(stack'))
            && Scan([r] + t, stack, inQuote) == if Rejects(r, stack, inQuote) then Unbalanced(r) else Scan(t, stack', inQuote')
  {
    assert ([r] + t)[1..] == t;
  }

  lemma HopelessAfter(r: char, rest: string, stack: seq<char>, inQuote: bool)
    requires !Rejects(r, stack, inQuote)
    requires var (stack', inQuote') := After(r, stack, inQuote); Hopeless(rest, stack', inQuote')
    ensures Hopeless([r] + rest, stack, inQuote)
  {
    var (stack', inQuote') := After(r, stack, inQuote);
    hide Scan, After, Rejects;
    forall more ensures !Completes([r] + rest, more, stack, inQuote) {
      assert !Completes(rest, more, stack', inQuote');
      assert ([r] + rest) + more == [r] + (rest + more);
      ScanOneMore(r, rest + more, stack, inQuote);
    }
  }

  lemma HopelessAtOnce(r: char, stack: seq<char>, inQuote: bool)
    requires Rejects(r, stack, inQuote)
    ensures Hopeless([r], stack, inQuote)
  {
    hide Scan, After, Rejects;
    forall more ensures !Completes([r], more, stack, inQuote) {
      ScanOneMore(r, more, stack, inQuote);
    }
  }

  lemma {:induction false} RejectedAt(text: string, stack: seq<char>, inQuote: bool) returns (i: nat)
    requires AllOpen(stack) && Scan(text, stack, inQuote).Unbalanced?
    ensures i < |text| && text[i] == Scan(text, stack, inQuote).c
    ensures !Scan(text[..i], stack, inQuote).Unbalanced?
    ensures Hopeless(text[..i + 1], stack, inQuote)
  {
    var r, rest := text[0], text[1..];
    assert text == [r] + rest;
    ScanOneMore(r, rest, stack, inQuote);
    var (stack', inQuote') := After(r, stack, inQuote);
    if Rejects(r, stack, inQuote) {
      i := 0;
      assert text[..0] == [] && text[..1] == [r];
      HopelessAtOnce(r, stack, inQuote);
    } else {
      hide Scan, After, Rejects, Hopeless, AllOpen;
      var k := RejectedAt(rest, stack', inQuote');
      i := k + 1;
      assert text[..i] == [r] + rest[..k] && text[..i + 1] == [r] + rest[..k + 1];
      ScanOneMore(r, rest[..k], stack, inQuote);
      HopelessAfter(r, rest[..k + 1], stack, inQuote);
    }
  }

  lemma HopelessStays(upTo: string, beyond: string, stack: seq<char>, inQuote: bool)
    requires Hopeless(upTo, stack, inQuote)
    ensures Hopeless(upTo + beyond, stack, inQuote)
  {
    hide Scan;
    forall more ensures !Completes(upTo + beyond, more, stack, inQuote) {
      assert (upTo + beyond) + more == upTo + (beyond + more);
      assert !Completes(upTo, beyond + more, stack, inQuote);
    }
  }

  /**
   * "Unbalanced" is final and as early as it can be: it names the first character no continuation could
   * survive. The other two errors mean the opposite, that the text could still have been completed.
   */
  lemma UnbalancedMeansHopeless(content: string)
    ensures Scan(content, [], false).Unbalanced? <==> !exists more :: Completes(content, more, [], false)
    ensures Scan(content, [], false).Unbalanced? ==>
      exists i, more :: 0 <= i < |content| && content[i] == Scan(content, [], false).c
                        && Completes(content[..i], more, [], false)
  {
    hide Scan, Completes;
    if Scan(content, [], false).Unbalanced? {
      var i := RejectedAt(content, [], false);
      HopelessStays(content[..i + 1], content[i + 1..], [], false);
      assert content[..i + 1] + content[i + 1..] == content;
      var more := Completable(content[..i], [], false);
    } else {
      var more := Completable(content, [], false);
    }
  }
}
