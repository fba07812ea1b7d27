/** Help: what a help listing from `showHelpByPermission` must contain. The
    alias map is a `HashMap`, whose iteration order is unspecified, so a listing
    is characterised by WHICH handlers it shows, never by their order. */
module Help {
  import opened Commands

  /** No element occurs twice. */
  predicate Distinct<T(==)>(s: seq<T>) {
    forall i, j :: 0 <= i < j < |s| ==> s[i] != s[j]
  }

  /** Every method of `s` carries `@Command`. */
  predicate Annotated(s: seq<Method>) {
    forall i :: 0 <= i < |s| ==> s[i].annotation.Some?
  }

  /** The help line of one command; colouring is left out. */
  function HelpLine(command: Command): string {
    command.usage + " " + command.description
  }

  /** The help lines of the shown handlers, in the order shown. */
  function HelpLines(shown: seq<Method>): (r: seq<string>)
    requires Annotated(shown)
    ensures |r| == |shown|
  {
    seq(|shown|, i requires 0 <= i < |shown| => HelpLine(shown[i].annotation.value))
  }

  /** `shown` lists each handler reachable through some alias of `commands`
      and usable by `sender` exactly once, and nothing else. */
  ghost predicate IsListing(commands: map<string, Method>, shown: seq<Method>, sender: Sender) {
    Distinct(shown) &&
    forall h :: h in shown <==> h in commands.Values && Visible(h, sender)
  }

  /** The lines of a concatenation are the concatenation of the lines. */
  lemma HelpLinesAppend(a: seq<Method>, b: seq<Method>)
    requires Annotated(a) && Annotated(b)
    ensures Annotated(a + b)
    ensures HelpLines(a + b) == HelpLines(a) + HelpLines(b)
  {
    assert Annotated(a + b) by {
      forall i | 0 <= i < |a + b| ensures (a + b)[i].annotation.Some? {
        if i >= |a| { assert (a + b)[i] == b[i - |a|]; }
      }
    }
  }

  /** A sequence without repeats holds each of its elements once. */
  lemma {:induction false} DistinctCounts<T>(s: seq<T>)
    requires Distinct(s)
    ensures forall x :: multiset(s)[x] == if x in s then 1 else 0
    decreases |s|
  {
    if s != [] {
      assert s == [s[0]] + s[1..];
      DistinctCounts(s[1..]);
    }
  }

  /** Two listings for the same aliases and sender show the same handlers,
      each once, so they differ at most in order. */
  lemma ListingsArePermutations(commands: map<string, Method>, a: seq<Method>, b: seq<Method>, sender: Sender)
    requires IsListing(commands, a, sender) && IsListing(commands, b, sender)
    ensures multiset(a) == multiset(b)
    ensures |a| == |b|
  {
    DistinctCounts(a);
    DistinctCounts(b);
    assert forall x :: multiset(a)[x] == multiset(b)[x];
  }

  /** Taking one handler out of a sequence takes its line out of the lines. */
  lemma HelpLinesRemove(b: seq<Method>, k: int)
    requires Annotated(b) && 0 <= k < |b|
    ensures Annotated(b[..k] + b[k + 1..])
    ensures multiset(b[..k] + b[k + 1..]) == multiset(b) - multiset{b[k]}
    ensures multiset(HelpLines(b)) ==
      multiset(HelpLines(b[..k] + b[k + 1..])) + multiset{HelpLine(b[k].annotation.value)}
  {
    var front, back, x := b[..k], b[k + 1..], b[k];
    var line := HelpLine(x.annotation.value);
    assert b == front + [x] + back;
    assert Annotated(front) && Annotated(back) && Annotated([x]);
    HelpLinesAppend(front, [x]);
    HelpLinesAppend(front + [x], back);
    HelpLinesAppend(front, back);
    var lf, lb := HelpLines(front), HelpLines(back);
    assert HelpLines([x]) == [line];
    assert HelpLines(b) == lf + [line] + lb;
    assert multiset(HelpLines(b)) == multiset(lf) + multiset{line} + multiset(lb);
    assert multiset(HelpLines(front + back)) == multiset(lf) + multiset(lb);
    assert multiset(b) == multiset(front) + multiset{x} + multiset(back);
  }

  /** Handlers that are permutations of each other give lines that are permutations of each other. */
  lemma {:induction false} HelpLinesPermute(a: seq<Method>, b: seq<Method>)
    requires Annotated(a) && Annotated(b) && multiset(a) == multiset(b)
    ensures multiset(HelpLines(a)) == multiset(HelpLines(b))
    decreases |a|
  {
    if a == [] {
      assert |b| == |multiset(b)| == 0;
    } else {
      var x := a[0];
      assert x in multiset(b);
      var k :| 0 <= k < |b| && b[k] == x;
      HelpLinesRemove(b, k);
      var tail, rest := a[1..], b[..k] + b[k + 1..];
      assert a == [x] + tail;
      assert Annotated([x]) && Annotated(tail);
      HelpLinesAppend([x], tail);
      assert multiset(tail) == multiset(a) - multiset{x};
      HelpLinesPermute(tail, rest);
      var line := HelpLine(x.annotation.value);
      assert HelpLines([x]) == [line];
      assert multiset(HelpLines(a)) == multiset{line} + multiset(HelpLines(tail));
    }
  }

  /** Two listings for the same aliases and sender emit the same lines, up to order. */
  lemma ListingLinesArePermutations(commands: map<string, Method>, a: seq<Method>, b: seq<Method>, sender: Sender)
    requires IsListing(commands, a, sender) && IsListing(commands, b, sender)
    ensures Annotated(a) && Annotated(b)
    ensures multiset(HelpLines(a)) == multiset(HelpLines(b))
  {
    assert forall i :: 0 <= i < |a| ==> a[i] in a;
    assert forall i :: 0 <= i < |b| ==> b[i] in b;
    ListingsArePermutations(commands, a, b, sender);
    HelpLinesPermute(a, b);
  }
}
