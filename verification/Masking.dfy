/** Hiding secrets in log lines: `make_masker` in deploy.py and in agent_provision.py. */
module Masking {
  import opened Runs

  const MARK: char := '\U{2022}'
  const DEPLOY_MARKER: string := [MARK, MARK, MARK, MARK]
  const AGENT_MARKER: string := [MARK, MARK, MARK, MARK, MARK, MARK]
  const DEPLOY_SHORTEST: nat := 3
  const TOKEN_PREFIX: string := "sfw_"
  const TOKEN_DIGITS: nat := 8

  // ---- replacing one secret -----------------------------------------------

  predicate At(s: string, v: string, i: nat) {
    i + |v| <= |s| && s[i..i + |v|] == v
  }

  predicate Occurs(s: string, v: string) {
    exists i: nat | i <= |s| :: At(s, v, i)
  }

  /** Free of the marker character. */
  predicate Free(s: string) {
    MARK !in s
  }

  predicate Marker(m: string) {
    m != "" && forall k :: 0 <= k < |m| ==> m[k] == MARK
  }

  /** `str.replace`: left to right, occurrences taken do not overlap. */
  function Replace(s: string, v: string, m: string): string
    requires v != ""
    decreases |s|
  {
    if |s| < |v| then s
    else if v <= s then m + Replace(s[|v|..], v, m)
    else [s[0]] + Replace(s[1..], v, m)
  }

  lemma {:induction false} AtShift(s: string, v: string, k: nat, i: nat)
    requires k <= |s|
    ensures At(s[k..], v, i) <==> At(s, v, i + k)
  {
    if i + k + |v| <= |s| {
      assert s[k..][i..i + |v|] == s[i + k..i + k + |v|];
    }
  }

  /** A marker-free stretch covers no marker. */
  lemma {:induction false} CoversNoMarker(s: string, u: string, i: nat, p: nat)
    requires At(s, u, i) && Free(u) && i <= p < i + |u|
    ensures s[p] != MARK
  {
    assert s[i..i + |u|][p - i] == u[p - i];
  }

  lemma {:induction false} SameHead(s: string, p: string)
    requires p != "" && p <= s
    ensures s[0] == p[0]
  {
  }

  predicate Hit(s: string, v: string) {
    |s| >= |v| && v <= s
  }

  function Taken(s: string, v: string): nat {
    if Hit(s, v) then |v| else 1
  }

  function Given(s: string, v: string, m: string): nat {
    if Hit(s, v) then |m| else 1
  }

  lemma {:induction false} ReplaceStep(s: string, v: string, m: string)
    requires v != "" && |s| >= |v|
    ensures var out := Replace(s, v, m);
            |out| >= Given(s, v, m) && out[Given(s, v, m)..] == Replace(s[Taken(s, v)..], v, m) &&
            out[..Given(s, v, m)] == (if Hit(s, v) then m else [s[0]])
    ensures Marker(m) && Hit(s, v) ==> forall k :: 0 <= k < |m| ==> Replace(s, v, m)[k] == MARK
  {
    var out := Replace(s, v, m);
    if Hit(s, v) {
      assert out[..|m|] == m;
      assert forall k :: 0 <= k < |m| ==> out[k] == m[k];
    }
  }

  lemma {:induction false} PrefixIsKept(s: string, v: string, m: string, u: string)
    requires v != "" && Marker(m) && Free(u) && u <= Replace(s, v, m)
    ensures u <= s
    ensures |u| == |Replace(s, v, m)| ==> |u| == |s|
    decreases |s|
  {
    if |s| >= |v| && u != "" {
      ReplaceStep(s, v, m);
      hide Replace;
      CoversNoMarker(Replace(s, v, m), u, 0, 0);
      assert !Hit(s, v);
      assert u[1..] <= Replace(s, v, m)[1..];
      PrefixIsKept(s[1..], v, m, u[1..]);
      assert u == [u[0]] + u[1..] && s == [s[0]] + s[1..];
    }
  }

  /** A marker-free stretch of the result was a stretch of the line; one that ends the
      result ended the line. */
  lemma {:induction false} ReplaceInventsNothing(s: string, v: string, m: string, u: string, i: nat) returns (j: nat)
    requires v != "" && Marker(m) && Free(u) && At(Replace(s, v, m), u, i)
    ensures At(s, u, j)
    ensures i + |u| == |Replace(s, v, m)| ==> j + |u| == |s|
    decreases |s|
  {
    var out := Replace(s, v, m);
    if u == "" {
      j := if i == |out| then |s| else 0;
    } else if i == 0 {
      PrefixIsKept(s, v, m, u);
      j := 0;
    } else if |s| < |v| {
      j := i;
    } else {
      var taken, given := Taken(s, v), Given(s, v, m);
      ReplaceStep(s, v, m);
      CoversNoMarker(out, u, i, i);
      hide Replace;
      assert i >= given;
      AtShift(out, u, given, i - given);
      j := ReplaceInventsNothing(s[taken..], v, m, u, i - given);
      AtShift(s, u, taken, j);
      j := j + taken;
    }
  }

  lemma {:induction false} ReplacedIsGone(s: string, v: string, m: string, i: nat)
    requires v != "" && Marker(m) && Free(v)
    ensures !At(Replace(s, v, m), v, i)
    decreases |s|
  {
    if |s| >= |v| {
      var out, given := Replace(s, v, m), Given(s, v, m);
      ReplaceStep(s, v, m);
      hide Replace;
      if i >= given {
        ReplacedIsGone(s[Taken(s, v)..], v, m, i - given);
        AtShift(out, v, given, i - given);
      } else if At(out, v, i) {
        CoversNoMarker(out, v, i, i);
        PrefixIsKept(s, v, m, v);
      }
    }
  }

  lemma {:induction false} ReplaceIdle(s: string, v: string, m: string)
    requires v != "" && !Occurs(s, v)
    ensures Replace(s, v, m) == s
    decreases |s|
  {
    if |s| >= |v| {
      assert !At(s, v, 0);
      forall i: nat | i <= |s| - 1
        ensures !At(s[1..], v, i)
      {
        AtShift(s, v, 1, i);
      }
      ReplaceIdle(s[1..], v, m);
    }
  }

  // ---- the whole list -----------------------------------------------------

  predicate Usable(secrets: seq<string>) {
    forall k :: 0 <= k < |secrets| ==> secrets[k] != "" && Free(secrets[k])
  }

  /** One replacement after another, in list order. */
  function MaskAll(secrets: seq<string>, line: string, m: string): string
    requires "" !in secrets
  {
    if secrets == [] then line
    else Replace(MaskAll(secrets[..|secrets| - 1], line, m), secrets[|secrets| - 1], m)
  }

  /** Every marker-free stretch of a masked line stood in the line. */
  lemma {:induction false} MaskInventsNothing(secrets: seq<string>, line: string, m: string, u: string, i: nat)
    returns (j: nat)
    requires "" !in secrets && Marker(m) && Free(u) && At(MaskAll(secrets, line, m), u, i)
    ensures At(line, u, j)
    ensures i + |u| == |MaskAll(secrets, line, m)| ==> j + |u| == |line|
  {
    j := i;
    if secrets != [] {
      var before := secrets[..|secrets| - 1];
      var k := ReplaceInventsNothing(MaskAll(before, line, m), secrets[|secrets| - 1], m, u, i);
      j := MaskInventsNothing(before, line, m, u, k);
    }
  }

  lemma {:induction false} MaskKeepsPrefix(secrets: seq<string>, line: string, m: string, u: string)
    requires "" !in secrets && Marker(m) && Free(u) && u <= MaskAll(secrets, line, m)
    ensures u <= line
  {
    if secrets != [] {
      var before := secrets[..|secrets| - 1];
      PrefixIsKept(MaskAll(before, line, m), secrets[|secrets| - 1], m, u);
      MaskKeepsPrefix(before, line, m, u);
    }
  }

  /** No listed secret can be found in a masked line, whatever the list's order. */
  lemma {:induction false} NoSecretSurvives(secrets: seq<string>, line: string, m: string, v: string)
    requires Usable(secrets) && Marker(m) && v in secrets
    ensures !Occurs(MaskAll(secrets, line, m), v)
  {
    var before, last := secrets[..|secrets| - 1], secrets[|secrets| - 1];
    forall i: nat | i <= |MaskAll(secrets, line, m)|
      ensures !At(MaskAll(secrets, line, m), v, i)
    {
      if v == last {
        ReplacedIsGone(MaskAll(before, line, m), v, m, i);
      } else if At(MaskAll(secrets, line, m), v, i) {
        NoSecretSurvives(before, line, m, v);
        var _ := ReplaceInventsNothing(MaskAll(before, line, m), last, m, v, i);
      }
    }
  }

  lemma {:induction false} CleanOfOne(s: string, v: string, m: string)
    requires v != "" && !Occurs(s, v)
    ensures Replace(s, v, m) == s
    decreases |s|
  {
    if |s| >= |v| {
      assert !At(s, v, 0);
      forall i: nat | i <= |s[1..]|
        ensures !At(s[1..], v, i)
      {
        AtShift(s, v, 1, i);
        assert !At(s, v, i + 1);
      }
      CleanOfOne(s[1..], v, m);
    }
  }

  /** A line without secrets comes through as it is. */
  lemma {:induction false} CleanLineIsKept(secrets: seq<string>, line: string, m: string)
    requires "" !in secrets && forall v :: v in secrets ==> !Occurs(line, v)
    ensures MaskAll(secrets, line, m) == line
  {
    hide Occurs;
    if secrets != [] {
      CleanLineIsKept(secrets[..|secrets| - 1], line, m);
      CleanOfOne(line, secrets[|secrets| - 1], m);
    }
  }

  // ---- why the longest goes first -----------------------------------------

  predicate LongestFirst(secrets: seq<string>) {
    forall i, j :: 0 <= i < j < |secrets| ==> |secrets[i]| >= |secrets[j]|
  }

  /** An occurrence of `v` in `a + b` that begins in `a` and ends in `b`. */
  predicate Straddles(a: string, b: string, v: string) {
    exists i: nat | i < |a| :: |a| < i + |v| && At(a + b, v, i)
  }

  lemma {:induction false} ReplaceShort(a: string, v: string, m: string)
    requires v != "" && a != "" && !Hit(a, v)
    ensures Replace(a, v, m) == [a[0]] + Replace(a[1..], v, m)
  {
  }

  /** What the first step of a replacement writes. */
  function First(s: string, v: string, m: string): string
    requires s != ""
  {
    if Hit(s, v) then m else [s[0]]
  }

  lemma {:induction false} ReplaceFirst(s: string, v: string, m: string)
    requires v != "" && s != ""
    ensures Taken(s, v) <= |s| && Replace(s, v, m) == First(s, v, m) + Replace(s[Taken(s, v)..], v, m)
  {
    if !Hit(s, v) {
      ReplaceShort(s, v, m);
    }
  }

  lemma {:induction false} Assoc(x: string, y: string, z: string)
    ensures (x + y) + z == x + (y + z)
  {
  }

  lemma {:induction false} NoStraddleAtHead(a: string, b: string, v: string)
    requires v != "" && a != "" && !Straddles(a, b, v)
    ensures Hit(a + b, v) <==> Hit(a, v)
  {
    if Hit(a + b, v) {
      assert At(a + b, v, 0);
      assert !(|a| < 0 + |v|);
      assert v == (a + b)[..|v|] == a[..|v|];
    }
  }

  lemma {:induction false} NoStraddleInTail(a: string, b: string, v: string, taken: nat)
    requires taken <= |a| && !Straddles(a, b, v)
    ensures !Straddles(a[taken..], b, v)
  {
    assert (a + b)[taken..] == a[taken..] + b;
    forall i: nat | i < |a[taken..]| && |a[taken..]| < i + |v|
      ensures !At(a[taken..] + b, v, i)
    {
      AtShift(a + b, v, taken, i);
      assert i + taken < |a| ==> !At(a + b, v, i + taken);
    }
  }

  lemma {:induction false} FirstOfBoth(a: string, b: string, v: string, m: string)
    requires v != "" && a != "" && !Straddles(a, b, v)
    ensures Taken(a + b, v) == Taken(a, v) <= |a| && First(a + b, v, m) == First(a, v, m)
    ensures (a + b)[Taken(a, v)..] == a[Taken(a, v)..] + b
  {
    NoStraddleAtHead(a, b, v);
    hide Straddles;
  }

  lemma {:induction false} ReplaceSplits(a: string, b: string, v: string, m: string)
    requires v != "" && !Straddles(a, b, v)
    ensures Replace(a + b, v, m) == Replace(a, v, m) + Replace(b, v, m)
    decreases |a|
  {
    if a == "" {
      assert a + b == b;
    } else {
      var taken := Taken(a, v);
      FirstOfBoth(a, b, v, m);
      NoStraddleInTail(a, b, v, taken);
      ReplaceFirst(a, v, m);
      ReplaceFirst(a + b, v, m);
      ReplaceSplits(a[taken..], b, v, m);
      hide *;
      Assoc(First(a, v, m), Replace(a[taken..], v, m), Replace(b, v, m));
    }
  }

  lemma {:induction false} Across(a: string, b: string, p: string, q: string, j: nat)
    requires At(a, p, j) && j + |p| == |a| && q <= b
    ensures At(a + b, p + q, j)
  {
    assert (a + b)[j..j + |p + q|] == a[j..] + b[..|q|] == p + q;
  }

  /** Masking the two sides brings no new straddling occurrence about. */
  lemma {:induction false} StillApart(secrets: seq<string>, a: string, b: string, m: string, w: string)
    requires "" !in secrets && Marker(m) && Free(w) && !Straddles(a, b, w)
    ensures !Straddles(MaskAll(secrets, a, m), MaskAll(secrets, b, m), w)
  {
    var left, right := MaskAll(secrets, a, m), MaskAll(secrets, b, m);
    forall i: nat | i < |left| && |left| < i + |w|
      ensures !At(left + right, w, i)
    {
      if At(left + right, w, i) {
        var p, q := w[..|left| - i], w[|left| - i..];
        assert w == (left + right)[i..i + |w|] == left[i..] + right[..|q|];
        assert p == left[i..i + |p|] && q == right[..|q|];
        var j := MaskInventsNothing(secrets, a, m, p, i);
        MaskKeepsPrefix(secrets, b, m, q);
        Across(a, b, p, q, j);
      }
    }
  }

  lemma {:induction false} MaskSplits(secrets: seq<string>, a: string, b: string, m: string)
    requires Usable(secrets) && Marker(m)
    requires forall w :: w in secrets ==> !Straddles(a, b, w)
    ensures MaskAll(secrets, a + b, m) == MaskAll(secrets, a, m) + MaskAll(secrets, b, m)
  {
    if secrets != [] {
      var before, last := secrets[..|secrets| - 1], secrets[|secrets| - 1];
      MaskSplits(before, a, b, m);
      StillApart(before, a, b, m, last);
      ReplaceSplits(MaskAll(before, a, m), MaskAll(before, b, m), last, m);
    }
  }

  lemma {:induction false} MarkerIsStable(m: string, v: string)
    requires Marker(m) && v != "" && Free(v)
    ensures !Occurs(m, v)
  {
    forall i: nat | i <= |m|
      ensures !At(m, v, i)
    {
      if At(m, v, i) {
        CoversNoMarker(m, v, i, i);
      }
    }
  }

  lemma {:induction false} UntouchedByLonger(secrets: seq<string>, v: string, m: string)
    requires "" !in secrets && forall k :: 0 <= k < |secrets| ==> |secrets[k]| >= |v| && secrets[k] != v
    ensures MaskAll(secrets, v, m) == v
  {
    if secrets != [] {
      var last := secrets[|secrets| - 1];
      UntouchedByLonger(secrets[..|secrets| - 1], v, m);
      forall i: nat | i <= |v|
        ensures !At(v, last, i)
      {
        if i + |last| <= |v| {
          assert v[i..i + |last|] == v;
        }
      }
      ReplaceIdle(v, last, m);
    }
  }

  /** Longest first, a secret by itself becomes exactly one marker. */
  lemma {:induction false} SecretBecomesMarker(secrets: seq<string>, v: string, m: string)
    requires Usable(secrets) && LongestFirst(secrets) && Marker(m) && v in secrets
    ensures MaskAll(secrets, v, m) == m
  {
    var before, last := secrets[..|secrets| - 1], secrets[|secrets| - 1];
    if v in before {
      SecretBecomesMarker(before, v, m);
      MarkerIsStable(m, last);
      ReplaceIdle(m, last, m);
    } else {
      UntouchedByLonger(before, v, m);
      assert v[|v|..] == "" && Replace("", v, m) == "";
    }
  }

  /** Longest first, a secret standing in a line is replaced whole by one marker and no
      tail of it is left, unless another occurrence of a secret overlaps its ends. */
  lemma {:induction false} SecretIsHiddenWhole(secrets: seq<string>, a: string, v: string, b: string, m: string)
    requires Usable(secrets) && LongestFirst(secrets) && Marker(m) && v in secrets
    requires forall w :: w in secrets ==> !Straddles(a, v + b, w) && !Straddles(a + v, b, w)
    ensures MaskAll(secrets, a + v + b, m) == MaskAll(secrets, a, m) + m + MaskAll(secrets, b, m)
  {
    forall w | w in secrets
      ensures !Straddles(v, b, w)
    {
      forall i: nat | i < |v| && |v| < i + |w|
        ensures !At(v + b, w, i)
      {
        assert a + v + b == a + (v + b) && (a + (v + b))[|a|..] == v + b;
        assert !At(a + v + b, w, i + |a|);
        AtShift(a + v + b, w, |a|, i);
      }
    }
    assert a + v + b == a + (v + b);
    MaskSplits(secrets, a, v + b, m);
    MaskSplits(secrets, v, b, m);
    SecretBecomesMarker(secrets, v, m);
  }

  /** In the other order the tail of a longer secret is left in the log. */
  lemma {:induction false} ShortestFirstLeaksTheTail(v: string, tail: string, m: string)
    requires Marker(m) && v != "" && Free(v) && Free(tail) && tail != "" && !Occurs(tail, v)
    ensures MaskAll([v, v + tail], v + tail, m) == m + tail
    ensures MaskAll([v + tail, v], v + tail, m) == m
  {
    var long := v + tail;
    assert long[|v|..] == tail;
    ReplaceIdle(tail, v, m);
    assert MaskAll([], long, m) == long;
    assert [v, long][..1] == [v] && [v][..0] == [];
    assert MaskAll([v], long, m) == m + tail;
    forall i: nat | i <= |m + tail|
      ensures !At(m + tail, long, i)
    {
      if At(m + tail, long, i) {
        CoversNoMarker(m + tail, long, i, i);
      }
    }
    ReplaceIdle(m + tail, long, m);
    SecretBecomesMarker([long, v], long, m);
  }

  // ---- deploy.py ----------------------------------------------------------

  function LongEnough(values: seq<string>, shortest: nat): seq<string> {
    if values == [] then []
    else (if |values[0]| >= shortest then [values[0]] else []) + LongEnough(values[1..], shortest)
  }

  function InsertByLength(v: string, sorted: seq<string>): seq<string> {
    if sorted == [] || |sorted[0]| <= |v| then [v] + sorted
    else [sorted[0]] + InsertByLength(v, sorted[1..])
  }

  /** `sorted(…, key=len, reverse=True)`: stable, longest first. */
  function SortByLength(values: seq<string>): seq<string> {
    if values == [] then [] else InsertByLength(values[0], SortByLength(values[1..]))
  }

  lemma {:induction false} InsertKeepsAll(v: string, sorted: seq<string>)
    ensures multiset(InsertByLength(v, sorted)) == multiset(sorted) + multiset{v}
  {
    if sorted != [] {
      assert sorted == [sorted[0]] + sorted[1..];
      if |sorted[0]| > |v| {
        InsertKeepsAll(v, sorted[1..]);
      }
    }
  }

  lemma {:induction false} InsertSorts(v: string, sorted: seq<string>)
    requires LongestFirst(sorted)
    ensures LongestFirst(InsertByLength(v, sorted))
  {
    if sorted != [] && |sorted[0]| > |v| {
      var rest := InsertByLength(v, sorted[1..]);
      InsertSorts(v, sorted[1..]);
      InsertKeepsAll(v, sorted[1..]);
      forall k | 0 <= k < |rest|
        ensures |sorted[0]| >= |rest[k]|
      {
        assert rest[k] in multiset(rest);
      }
    }
  }

  lemma {:induction false} SortIsLongestFirst(values: seq<string>)
    ensures LongestFirst(SortByLength(values)) && multiset(SortByLength(values)) == multiset(values)
  {
    if values != [] {
      SortIsLongestFirst(values[1..]);
      InsertSorts(values[0], SortByLength(values[1..]));
      InsertKeepsAll(values[0], SortByLength(values[1..]));
      assert values == [values[0]] + values[1..];
    }
  }

  lemma {:induction false} LongEnoughKeeps(values: seq<string>, shortest: nat)
    ensures forall v :: v in LongEnough(values, shortest) <==> v in values && |v| >= shortest
  {
    if values != [] {
      LongEnoughKeeps(values[1..], shortest);
      assert values == [values[0]] + values[1..];
    }
  }

  lemma {:induction false} SortedLong(values: seq<string>, shortest: nat)
    ensures LongestFirst(SortByLength(LongEnough(values, shortest)))
    ensures forall v :: v in SortByLength(LongEnough(values, shortest)) <==> v in values && |v| >= shortest
  {
    var long := LongEnough(values, shortest);
    SortIsLongestFirst(long);
    LongEnoughKeeps(values, shortest);
    forall v
      ensures v in SortByLength(long) <==> v in long
    {
      assert v in SortByLength(long) <==> v in multiset(SortByLength(long));
    }
  }

  /** The list the deploy masker closes over: longest first, exactly the values of three
      characters or more. */
  function DeploySecrets(values: seq<string>): (secrets: seq<string>)
    ensures LongestFirst(secrets)
    ensures forall v :: v in secrets <==> v in values && |v| >= DEPLOY_SHORTEST
  {
    SortedLong(values, DEPLOY_SHORTEST);
    SortByLength(LongEnough(values, DEPLOY_SHORTEST))
  }

  method ApplyAll(secrets: seq<string>, line: string, m: string) returns (masked: string)
    requires "" !in secrets
    ensures masked == MaskAll(secrets, line, m)
  {
    masked := line;
    var i := 0;
    while i < |secrets|
      invariant 0 <= i <= |secrets|
      invariant masked == MaskAll(secrets[..i], line, m)
    {
      var s := secrets[i];
      assert secrets[..i + 1][..i] == secrets[..i];
      if Occurs(masked, s) {
        masked := Replace(masked, s, m);
      } else {
        ReplaceIdle(masked, s, m);
      }
      i := i + 1;
    }
    assert secrets[..|secrets|] == secrets;
  }

  /** A line through the deploy masker: no marker-free value of three characters or more
      is left in it, and whatever is left without a marker was there before. */
  method MaskDeployLine(values: seq<string>, line: string) returns (masked: string)
    ensures masked == MaskAll(DeploySecrets(values), line, "\U{2022}\U{2022}\U{2022}\U{2022}")
    ensures (forall v :: v in values ==> Free(v)) ==>
      forall v :: v in values && |v| >= 3 ==> !Occurs(masked, v)
    ensures (forall v :: v in values && |v| >= 3 ==> !Occurs(line, v)) ==> masked == line
    ensures forall u, i: nat :: Free(u) && At(masked, u, i) ==> Occurs(line, u)
  {
    var secrets := DeploySecrets(values);
    masked := ApplyAll(secrets, line, DEPLOY_MARKER);
    if forall v :: v in secrets ==> !Occurs(line, v) {
      CleanLineIsKept(secrets, line, DEPLOY_MARKER);
    }
    forall v | v in secrets && Usable(secrets)
      ensures !Occurs(masked, v)
    {
      NoSecretSurvives(secrets, line, DEPLOY_MARKER, v);
    }
    forall u, i: nat | Free(u) && At(masked, u, i)
      ensures Occurs(line, u)
    {
      var j := MaskInventsNothing(secrets, line, DEPLOY_MARKER, u, i);
    }
  }

  // ---- agent_provision.py -------------------------------------------------

  predicate Hex(c: char) {
    '0' <= c <= '9' || 'a' <= c <= 'f'
  }

  function HexRun(s: string): (n: nat)
    ensures n <= |s| && (forall k :: 0 <= k < n ==> Hex(s[k])) && (n < |s| ==> !Hex(s[n]))
  {
    if s == "" || !Hex(s[0]) then 0 else 1 + HexRun(s[1..])
  }

  /** A token begins the string: `sfw_` and at least eight hex digits. */
  predicate Token(s: string) {
    TOKEN_PREFIX <= s && HexRun(s[4..]) >= TOKEN_DIGITS
  }

  const HIDDEN_TOKEN: string := TOKEN_PREFIX + AGENT_MARKER

  /** `re.sub` with `sfw_[0-9a-f]{8,}`, which takes every digit it can. */
  function HideTokens(s: string): string
    decreases |s|
  {
    if s == "" then ""
    else if Token(s) then HIDDEN_TOKEN + HideTokens(s[4 + HexRun(s[4..])..])
    else [s[0]] + HideTokens(s[1..])
  }

  function TokenTaken(s: string): (n: nat)
    requires s != ""
    ensures 1 <= n <= |s|
  {
    if Token(s) then 4 + HexRun(s[4..]) else 1
  }

  function TokenGiven(s: string): nat {
    if Token(s) then |HIDDEN_TOKEN| else 1
  }

  predicate HexDigit(c: char) {
    c in "0123456789abcdef"
  }

  /** A token: `sfw_` and eight hex digits, whatever comes after them. */
  lemma {:induction false} TokenIs(s: string)
    ensures Token(s) <==> |s| >= 12 && s[..4] == "sfw_" && forall k :: 4 <= k < 12 ==> HexDigit(s[k])
  {
    assert forall c :: HexDigit(c) <==> Hex(c);
    if |s| >= 12 && s[..4] == "sfw_" {
      assert forall k :: 4 <= k < 12 ==> s[k] == s[4..][k - 4];
      HexRunOfPrefix(s[4..], 8);
    }
    if Token(s) {
      TokenLooks(s);
    }
  }

  /** A token goes with all its digits, and only they do. */
  lemma {:induction false} TokenIsHiddenWhole(digits: string, rest: string)
    requires |digits| >= 8 && forall c :: c in digits ==> HexDigit(c)
    requires rest != "" ==> !HexDigit(rest[0])
    ensures HideTokens("sfw_" + digits + rest) ==
            "sfw_\U{2022}\U{2022}\U{2022}\U{2022}\U{2022}\U{2022}" + HideTokens(rest)
  {
    var s := "sfw_" + digits + rest;
    AfterPrefix(digits, rest);
    assert forall c :: HexDigit(c) <==> Hex(c);
    RunOfDigits(digits, rest);
    hide HexRun, Hex, HexDigit;
  }

  lemma {:induction false} AfterPrefix(digits: string, rest: string)
    ensures var s := "sfw_" + digits + rest;
            s[4..] == digits + rest && TOKEN_PREFIX <= s && s[4 + |digits|..] == rest
  {
  }

  lemma {:induction false} RunOfDigits(digits: string, rest: string)
    requires forall c :: c in digits ==> Hex(c)
    requires rest != "" ==> !Hex(rest[0])
    ensures HexRun(digits + rest) == |digits|
  {
    if digits == "" {
      assert digits + rest == rest;
    } else {
      assert (digits + rest)[1..] == digits[1..] + rest;
      RunOfDigits(digits[1..], rest);
    }
  }

  lemma {:induction false} TokenFreeIsKept(s: string)
    requires forall i :: 0 <= i <= |s| ==> !Token(s[i..])
    ensures HideTokens(s) == s
  {
    if s != "" {
      assert s[0..] == s && !Token(s[0..]);
      forall i | 0 <= i <= |s[1..]|
        ensures !Token(s[1..][i..])
      {
        assert s[1..][i..] == s[i + 1..];
      }
      TokenFreeIsKept(s[1..]);
    }
  }

  lemma {:induction false} HideStep(s: string)
    requires s != ""
    ensures var out := HideTokens(s);
            |out| >= TokenGiven(s) && out[TokenGiven(s)..] == HideTokens(s[TokenTaken(s)..]) &&
            out[..TokenGiven(s)] == (if Token(s) then HIDDEN_TOKEN else [s[0]])
    ensures Token(s) ==> forall k :: 4 <= k < 10 ==> HideTokens(s)[k] == MARK
  {
    assert Token(s) ==> HideTokens(s)[..10] == HIDDEN_TOKEN;
  }

  lemma {:induction false} TokenPrefixIsKept(s: string, u: string)
    requires Free(u) && u <= HideTokens(s)
    ensures u <= s
    decreases |s|
  {
    if s != "" && u != "" {
      HideStep(s);
      hide HideTokens, HexRun;
      if Token(s) {
        if |u| > 4 {
          CoversNoMarker(HideTokens(s), u, 0, 4);
        }
        assert u == HideTokens(s)[..10][..|u|];
      } else {
        assert u[1..] <= HideTokens(s)[1..];
        SameHead(HideTokens(s), u);
        TokenPrefixIsKept(s[1..], u[1..]);
        assert u == [u[0]] + u[1..] && s == [s[0]] + s[1..];
      }
    }
  }

  lemma {:induction false} InsideHiddenToken(s: string, u: string, i: nat)
    requires s != "" && Token(s) && u != "" && Free(u) && i < 10 && At(HideTokens(s), u, i)
    ensures At(s, u, i)
  {
    var out := HideTokens(s);
    HideStep(s);
    hide HideTokens, HexRun;
    CoversNoMarker(out, u, i, i);
    if i + |u| > 4 {
      CoversNoMarker(out, u, i, 4);
    }
    assert out[i..i + |u|] == out[..10][i..i + |u|] == s[..4][i..i + |u|];
  }

  lemma {:induction false} HidingTokensInventsNothing(s: string, u: string, i: nat) returns (j: nat)
    requires Free(u) && At(HideTokens(s), u, i)
    ensures At(s, u, j)
    decreases |s|
  {
    var out := HideTokens(s);
    j := 0;
    if u == "" {
    } else if i == 0 {
      TokenPrefixIsKept(s, u);
    } else {
      var taken, given := TokenTaken(s), TokenGiven(s);
      HideStep(s);
      hide HideTokens, HexRun, TokenTaken;
      CoversNoMarker(out, u, i, i);
      if i >= given {
        AtShift(out, u, given, i - given);
        j := HidingTokensInventsNothing(s[taken..], u, i - given);
        AtShift(s, u, taken, j);
        j := j + taken;
      } else {
        InsideHiddenToken(s, u, i);
        j := i;
      }
    }
  }

  lemma {:induction false} HexRunOfPrefix(s: string, n: nat)
    requires n <= |s|
    ensures HexRun(s) >= n <==> forall k :: 0 <= k < n ==> Hex(s[k])
  {
  }

  lemma {:induction false} TokenLooks(s: string)
    requires Token(s)
    ensures |s| >= 12 && s[0] == 's' && forall k :: 4 <= k < 12 ==> Hex(s[k])
    ensures Free(s[..12]) && Token(s[..12])
  {
    assert s[..4] == TOKEN_PREFIX;
    assert forall k :: 4 <= k < 12 ==> s[k] == s[4..][k - 4];
    assert s[..12][4..] == s[4..12];
    HexRunOfPrefix(s[4..12], 8);
  }

  lemma {:induction false} LongerIsToken(s: string, u: string)
    requires u <= s && |u| == 12 && Token(u)
    ensures Token(s)
  {
    TokenLooks(u);
    HexRunOfPrefix(s[4..], 8);
    assert forall k :: 0 <= k < 8 ==> s[4..][k] == u[k + 4];
  }

  lemma {:induction false} HiddenIsNoToken(s: string, i: nat)
    requires s != "" && Token(s) && i < 10
    ensures i <= |HideTokens(s)| && !Token(HideTokens(s)[i..])
  {
    HideStep(s);
    hide HideTokens;
    var out := HideTokens(s);
    assert forall k :: 0 <= k < 10 ==> out[k] == out[..10][k] == HIDDEN_TOKEN[k];
    if Token(out[i..]) {
      TokenLooks(out[i..]);
    }
  }

  /** No token is left anywhere. */
  lemma {:induction false} NoTokenIsLeft(s: string, i: nat)
    requires i <= |HideTokens(s)|
    ensures !Token(HideTokens(s)[i..])
    decreases |s|
  {
    if s != "" {
      var out, given := HideTokens(s), TokenGiven(s);
      HideStep(s);
      if i >= given {
        hide HideTokens, HexRun;
        assert out[i..] == out[given..][i - given..];
        NoTokenIsLeft(s[TokenTaken(s)..], i - given);
      } else if Token(s) {
        HiddenIsNoToken(s, i);
      } else {
        assert out[0..] == out;
        if Token(out) {
          TokenLooks(out);
          TokenPrefixIsKept(s, out[..12]);
          LongerIsToken(s, out[..12]);
        }
      }
    }
  }

  /** The list the agent masker closes over: a set of values, sorted by length. */
  ghost predicate AgentSecrets(values: seq<Option<string>>, known: seq<string>) {
    LongestFirst(known) && (forall v :: v in known <==> Some(v) in values && |v| >= 4) &&
    forall i, j :: 0 <= i < j < |known| ==> known[i] != known[j]
  }

  /** The line the agent masker makes. */
  function AgentMasked(known: seq<string>, line: string): string
    requires "" !in known
  {
    HideTokens(MaskAll(known, line, AGENT_MARKER))
  }

  lemma {:induction false} AgentSecretsAreGone(known: seq<string>, line: string)
    requires Usable(known)
    ensures forall v :: v in known ==> !Occurs(AgentMasked(known, line), v)
  {
    var plain := MaskAll(known, line, AGENT_MARKER);
    forall v | v in known
      ensures !Occurs(HideTokens(plain), v)
    {
      NoSecretSurvives(known, line, AGENT_MARKER, v);
      forall i: nat | i <= |HideTokens(plain)|
        ensures !At(HideTokens(plain), v, i)
      {
        if At(HideTokens(plain), v, i) {
          var j := HidingTokensInventsNothing(plain, v, i);
        }
      }
    }
  }

  lemma {:induction false} AgentLineInventsNothing(known: seq<string>, line: string)
    requires "" !in known
    ensures forall u, i: nat :: Free(u) && At(AgentMasked(known, line), u, i) ==> Occurs(line, u)
  {
    var plain := MaskAll(known, line, AGENT_MARKER);
    forall u, i: nat | Free(u) && At(HideTokens(plain), u, i)
      ensures Occurs(line, u)
    {
      var j := HidingTokensInventsNothing(plain, u, i);
      var k := MaskInventsNothing(known, line, AGENT_MARKER, u, j);
      assert At(line, u, k);
    }
  }

  lemma {:induction false} NoTokenIsLeftIn(known: seq<string>, line: string)
    requires "" !in known
    ensures forall i :: 0 <= i <= |AgentMasked(known, line)| ==> !Token(AgentMasked(known, line)[i..])
  {
    var plain := MaskAll(known, line, AGENT_MARKER);
    forall i | 0 <= i <= |HideTokens(plain)|
      ensures !Token(HideTokens(plain)[i..])
    {
      NoTokenIsLeft(plain, i);
    }
  }

  /** No token begins anywhere in the line. */
  ghost predicate NoToken(line: string) {
    forall i :: 0 <= i <= |line| ==> !Token(line[i..])
  }

  /** A line through the agent masker: no marker-free secret of four characters or more
      is left, no token is, whatever is left without a marker was there before, and a
      line with neither comes through as it is. */
  method MaskAgentLine(values: seq<Option<string>>, known: seq<string>, line: string) returns (masked: string)
    requires AgentSecrets(values, known)
    ensures (forall v :: Some(v) in values ==> Free(v)) ==>
      forall v :: Some(v) in values && |v| >= 4 ==> !Occurs(masked, v)
    ensures NoToken(masked)
    ensures forall u, i: nat :: Free(u) && At(masked, u, i) ==> Occurs(line, u)
    ensures masked == HideTokens(MaskAll(known, line, "\U{2022}\U{2022}\U{2022}\U{2022}\U{2022}\U{2022}"))
    ensures NoToken(line) && (forall v :: Some(v) in values && |v| >= 4 ==> !Occurs(line, v)) ==> masked == line
  {
    hide MaskAll, HideTokens, Occurs, At, Token, Free;
    var plain := ApplyAll(known, line, AGENT_MARKER);
    masked := HideTokens(plain);
    assert masked == AgentMasked(known, line);
    NoTokenIsLeftIn(known, line);
    AgentLineInventsNothing(known, line);
    if forall v :: Some(v) in values ==> Free(v) {
      AgentSecretsAreGone(known, line);
    }
    if NoToken(line) && forall v :: v in known ==> !Occurs(line, v) {
      CleanLineIsKept(known, line, AGENT_MARKER);
      TokenFreeIsKept(line);
    }
  }
}
