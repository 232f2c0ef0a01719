/** Values and small operations of the JavaScript runtime that both services rely on:
    optional (possibly undefined) request fields, truthiness of strings,
    `String.prototype.startsWith`, `String.prototype.replace` with a string pattern,
    and the sequencing of awaited calls inside a `try` block. */
module Support {

  /** An optional value: `None` stands for a field that is `undefined`. */
  datatype Option<+T> = None | Some(value: T)

  /** JavaScript truthiness of an optional string: `undefined` and `""` are falsy. */
  predicate Truthy(s: Option<string>)
  {
    s.Some? && s.value != ""
  }

  /** `s.startsWith(prefix)`. */
  predicate StartsWith(s: string, prefix: string)
  {
    |prefix| <= |s| && s[..|prefix|] == prefix
  }

  /** `pat` occurs in `s` at index `i`. */
  predicate OccursAt(s: string, pat: string, i: int)
  {
    0 <= i && i + |pat| <= |s| && s[i..i + |pat|] == pat
  }

  /** `s.replace(pat, rep)`: only the first (leftmost) occurrence of `pat` is replaced;
      with no occurrence the string comes back unchanged. */
  function ReplaceFirst(s: string, pat: string, rep: string): string
    decreases |s|
  {
    if |s| < |pat| then s
    else if s[..|pat|] == pat then rep + s[|pat|..]
    else [s[0]] + ReplaceFirst(s[1..], pat, rep)
  }

  /** Occurrences in the tail of `s` are the occurrences in `s` shifted by one. */
  lemma OccursInTail(s: string, pat: string, j: nat)
    requires |s| > 0
    ensures OccursAt(s[1..], pat, j) <==> OccursAt(s, pat, j + 1)
  {
    if j + 1 + |pat| <= |s| {
      assert s[1..][j..j + |pat|] == s[j + 1..j + 1 + |pat|];
    }
  }

  /** With no occurrence of `pat`, `ReplaceFirst` is the identity. */
  lemma {:induction false} ReplaceFirstAbsent(s: string, pat: string, rep: string)
    requires forall i :: 0 <= i <= |s| - |pat| ==> !OccursAt(s, pat, i)
    ensures ReplaceFirst(s, pat, rep) == s
    decreases |s|
  {
    if |s| >= |pat| {
      assert !OccursAt(s, pat, 0);
      forall i | 0 <= i <= |s[1..]| - |pat|
        ensures !OccursAt(s[1..], pat, i)
      {
        OccursInTail(s, pat, i);
      }
      ReplaceFirstAbsent(s[1..], pat, rep);
      assert [s[0]] + s[1..] == s;
    }
  }

  /** When the leftmost occurrence of `pat` is at `i`, exactly that occurrence is replaced. */
  lemma {:induction false} ReplaceFirstAt(s: string, pat: string, rep: string, i: nat)
    requires OccursAt(s, pat, i)
    requires forall j :: 0 <= j < i ==> !OccursAt(s, pat, j)
    ensures ReplaceFirst(s, pat, rep) == s[..i] + rep + s[i + |pat|..]
    decreases i
  {
    if i > 0 {
      assert !OccursAt(s, pat, 0);
      var t := s[1..];
      OccursInTail(s, pat, i - 1);
      forall j | 0 <= j < i - 1
        ensures !OccursAt(t, pat, j)
      {
        OccursInTail(s, pat, j);
      }
      ReplaceFirstAt(t, pat, rep, i - 1);
      calc {
        ReplaceFirst(s, pat, rep);
        [s[0]] + ReplaceFirst(t, pat, rep);
        [s[0]] + (t[..i - 1] + rep + t[i - 1 + |pat|..]);
        { assert [s[0]] + t[..i - 1] == s[..i]; assert t[i - 1 + |pat|..] == s[i + |pat|..]; }
        s[..i] + rep + s[i + |pat|..];
      }
    }
  }

  /** No occurrence starting before `k` means the first `k` characters are left alone. */
  lemma {:induction false} ReplaceFirstKeepsPrefix(s: string, pat: string, rep: string, k: nat)
    requires k <= |s|
    requires forall j :: 0 <= j < k ==> !OccursAt(s, pat, j)
    ensures k <= |ReplaceFirst(s, pat, rep)| && ReplaceFirst(s, pat, rep)[..k] == s[..k]
    decreases k
  {
    if k > 0 && |s| >= |pat| {
      assert !OccursAt(s, pat, 0);
      forall j | 0 <= j < k - 1
        ensures !OccursAt(s[1..], pat, j)
      {
        OccursInTail(s, pat, j);
      }
      ReplaceFirstKeepsPrefix(s[1..], pat, rep, k - 1);
      assert ReplaceFirst(s, pat, rep) == [s[0]] + ReplaceFirst(s[1..], pat, rep);
      assert s[..k] == [s[0]] + s[1..][..k - 1];
    }
  }

  /** The calls of a `try` block that are actually issued: each call in `steps` is made in
      turn until one of them throws (is in `failing`); the throwing call is the last one made. */
  function Attempted<C(==)>(steps: seq<C>, failing: set<C>): (made: seq<C>)
    ensures |made| <= |steps| && made == steps[..|made|]
    ensures forall i :: 0 <= i < |made| - 1 ==> made[i] !in failing
    ensures Succeeds(steps, failing) ==> made == steps
    ensures made != steps ==> made != [] && made[|made| - 1] in failing
  {
    if steps == [] then []
    else if steps[0] in failing then [steps[0]]
    else [steps[0]] + Attempted(steps[1..], failing)
  }

  /** No call of `steps` throws. */
  predicate Succeeds<C(==)>(steps: seq<C>, failing: set<C>)
  {
    forall i :: 0 <= i < |steps| ==> steps[i] !in failing
  }

  /** One awaited call: it is issued (recorded in the trace) and completes unless it throws. */
  method Perform<C(==)>(c: C, failing: set<C>, calls: seq<C>) returns (ok: bool, calls': seq<C>)
    ensures ok <==> c !in failing
    ensures calls' == calls + [c]
  {
    ok := c !in failing;
    calls' := calls + [c];
  }

  /** Where a `try` block is while it runs: while no call has thrown, the calls made so far
      are a prefix of `steps` none of which threw; once one threw, they are all that is made. */
  ghost predicate Progress<C>(steps: seq<C>, failing: set<C>, ok: bool, made: seq<C>)
  {
    if ok then |made| <= |steps| && made == steps[..|made|] && Succeeds(made, failing)
    else made == Attempted(steps, failing)
  }

  /** Making the next call of `steps` keeps `Progress`. */
  lemma Advance<C>(steps: seq<C>, failing: set<C>, made: seq<C>)
    requires Progress(steps, failing, true, made) && |made| < |steps|
    ensures Progress(steps, failing, steps[|made|] !in failing, made + [steps[|made|]])
  {
    if steps[|made|] in failing {
      AttemptedStopsAt(steps, failing, |made|);
    }
    assert made + [steps[|made|]] == steps[..|made| + 1];
  }

  /** When the calls before `steps[k]` complete and `steps[k]` throws, the calls made are
      exactly `steps[..k + 1]`: nothing after the throwing call is issued. */
  lemma AttemptedStopsAt<C>(steps: seq<C>, failing: set<C>, k: nat)
    requires k < |steps|
    requires Succeeds(steps[..k], failing) && steps[k] in failing
    ensures Attempted(steps, failing) == steps[..k + 1]
  {
  }
}
