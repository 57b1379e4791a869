/**
 * The progress tracker of the application workflow: three step records, the
 * three field setters, and what it means for a sequence of setter calls to
 * move every step forward only.
 */
module Progress {

  /** EProgressStatus. */
  datatype Status = NotStarted | InProgress | IsSuccess | IsError {
    predicate IsTerminal() {
      this == IsSuccess || this == IsError
    }
  }

  /** TProgressStep: one row of the progress display. */
  datatype Step = Step(id: nat, content: string, target: string, href: string, status: Status)

  /** Stand-ins for the two ETarget values the initial steps use. */
  const IpfsTarget: string := "IPFS"
  const PoolTarget: string := "POOL"

  /** The module-level `initialSteps` array. */
  function InitialSteps(): (r: seq<Step>) {
    [ Step(0, "Saving your application to ", IpfsTarget, "", InProgress),
      Step(1, "Registering your application on ", PoolTarget, "#", NotStarted),
      Step(2, "Indexing your application", "", "", NotStarted) ]
  }

  /** One call of `updateStepTarget`, `updateStepStatus` or `updateStepHref`. */
  datatype Update =
    | SetTarget(index: nat, target: string)
    | SetStatus(index: nat, status: Status)
    | SetHref(index: nat, href: string)

  /** Every update in `us` addresses a step of an array of length `n`. */
  predicate InBounds(us: seq<Update>, n: nat) {
    forall k :: 0 <= k < |us| ==> us[k].index < n
  }

  /**
   * The steps after one setter call: exactly one field of the step at
   * `u.index` takes the new value; the length, every other step and every
   * other field of that step are as before.
   */
  function Apply(s: seq<Step>, u: Update): (r: seq<Step>)
    requires u.index < |s|
    ensures |r| == |s|
    ensures forall j :: 0 <= j < |s| && j != u.index ==> r[j] == s[j]
    ensures r[u.index].id == s[u.index].id && r[u.index].content == s[u.index].content
    ensures r[u.index].target == (if u.SetTarget? then u.target else s[u.index].target)
    ensures r[u.index].status == (if u.SetStatus? then u.status else s[u.index].status)
    ensures r[u.index].href == (if u.SetHref? then u.href else s[u.index].href)
  {
    var old_step := s[u.index];
    match u
    case SetTarget(i, t) => s[i := old_step.(target := t)]
    case SetStatus(i, st) => s[i := old_step.(status := st)]
    case SetHref(i, h) => s[i := old_step.(href := h)]
  }

  /** The steps after the setter calls `us`, in order. */
  function Replay(s: seq<Step>, us: seq<Update>): (r: seq<Step>)
    requires InBounds(us, |s|)
    ensures |r| == |s|
    decreases |us|
  {
    if us == [] then s else Replay(Apply(s, us[0]), us[1..])
  }

  /** Replaying two batches of updates one after the other is replaying their concatenation. */
  lemma {:induction false} ReplayAppend(s: seq<Step>, a: seq<Update>, b: seq<Update>)
    requires InBounds(a, |s|) && InBounds(b, |s|)
    ensures InBounds(a + b, |s|)
    ensures Replay(s, a + b) == Replay(Replay(s, a), b)
    decreases |a|
  {
    if a != [] {
      assert (a + b)[0] == a[0];
      assert (a + b)[1..] == a[1..] + b;
      ReplayAppend(Apply(s, a[0]), a[1..], b);
    } else {
      assert a + b == b;
    }
  }

  /**
   * The status of step `i` may go from `a` to `b` in one update: stay, start,
   * or finish. Only the indexing step (2) may finish without having started.
   */
  predicate Advances(i: nat, a: Status, b: Status) {
    || a == b
    || (a == NotStarted && b == InProgress)
    || (a == InProgress && b.IsTerminal())
    || (i == 2 && a == NotStarted && b.IsTerminal())
  }

  /** Every step's status moves forward only, update after update. */
  predicate Monotone(s: seq<Step>, us: seq<Update>)
    requires InBounds(us, |s|)
    decreases |us|
  {
    us == [] ||
    ((forall i :: 0 <= i < |s| ==> Advances(i, s[i].status, Apply(s, us[0])[i].status))
     && Monotone(Apply(s, us[0]), us[1..]))
  }

  /** Forward-only batches compose. */
  lemma {:induction false} MonotoneAppend(s: seq<Step>, a: seq<Update>, b: seq<Update>)
    requires InBounds(a, |s|) && InBounds(b, |s|)
    requires Monotone(s, a) && Monotone(Replay(s, a), b)
    ensures InBounds(a + b, |s|)
    ensures Monotone(s, a + b)
    decreases |a|
  {
    if a != [] {
      assert (a + b)[0] == a[0];
      assert (a + b)[1..] == a[1..] + b;
      MonotoneAppend(Apply(s, a[0]), a[1..], b);
    } else {
      assert a + b == b;
    }
  }

  /** One update, replayed. */
  lemma {:induction false} ReplayOne(s: seq<Step>, u: Update)
    requires u.index < |s|
    ensures InBounds([u], |s|)
    ensures Replay(s, [u]) == Apply(s, u)
  {
  }

  /** Two setter calls in a row. */
  lemma {:induction false} ReplayTwo(s: seq<Step>, u: Update, v: Update)
    requires u.index < |s| && v.index < |s|
    ensures InBounds([u, v], |s|)
    ensures Replay(s, [u, v]) == Apply(Apply(s, u), v)
  {
    ReplayOne(s, u);
    ReplayOne(Apply(s, u), v);
    ReplayAppend(s, [u], [v]);
    assert [u] + [v] == [u, v];
  }

  /** Three setter calls in a row. */
  lemma {:induction false} ReplayThree(s: seq<Step>, u: Update, v: Update, w: Update)
    requires u.index < |s| && v.index < |s| && w.index < |s|
    ensures InBounds([u, v, w], |s|)
    ensures Replay(s, [u, v, w]) == Apply(Apply(Apply(s, u), v), w)
  {
    assert [u, v, w][1..] == [v, w];
    ReplayTwo(Apply(s, u), v, w);
  }

  /** Four setter calls in a row. */
  lemma {:induction false} ReplayFour(s: seq<Step>, u: Update, v: Update, w: Update, x: Update)
    requires u.index < |s| && v.index < |s| && w.index < |s| && x.index < |s|
    ensures InBounds([u, v, w, x], |s|)
    ensures Replay(s, [u, v, w, x]) == Apply(Apply(Apply(Apply(s, u), v), w), x)
  {
    assert [u, v, w, x][1..] == [v, w, x];
    ReplayThree(Apply(s, u), v, w, x);
  }

  /** Updates that never address step `i` leave it as it was. */
  lemma {:induction false} ReplayLeavesOthers(s: seq<Step>, us: seq<Update>, i: nat)
    requires InBounds(us, |s|) && i < |s|
    requires forall k :: 0 <= k < |us| ==> us[k].index != i
    ensures Replay(s, us)[i] == s[i]
    decreases |us|
  {
    if us != [] {
      ReplayLeavesOthers(Apply(s, us[0]), us[1..], i);
    }
  }

  /** Under forward-only updates a finished step stays as it finished. */
  lemma {:induction false} MonotoneKeepsTerminal(s: seq<Step>, us: seq<Update>, i: nat)
    requires InBounds(us, |s|) && Monotone(s, us)
    requires i < |s| && s[i].status.IsTerminal()
    ensures Replay(s, us)[i].status == s[i].status
    decreases |us|
  {
    if us != [] {
      assert Advances(i, s[i].status, Apply(s, us[0])[i].status);
      MonotoneKeepsTerminal(Apply(s, us[0]), us[1..], i);
    }
  }

  /** A single update that moves no status backwards is forward-only. */
  lemma {:induction false} MonotoneOne(s: seq<Step>, u: Update)
    requires u.index < |s|
    requires u.SetStatus? ==> Advances(u.index, s[u.index].status, u.status)
    ensures InBounds([u], |s|)
    ensures Monotone(s, [u])
  {
  }

  /** At most one step is IN_PROGRESS. */
  predicate AtMostOneInProgress(s: seq<Step>) {
    forall i, j :: 0 <= i < j < |s| ==> !(s[i].status == InProgress && s[j].status == InProgress)
  }

  /** `P` holds of the steps before the updates `us`, between any two of them, and after the last. */
  predicate HoldsAlong(P: seq<Step> -> bool, s: seq<Step>, us: seq<Update>)
    requires InBounds(us, |s|)
    decreases |us|
  {
    P(s) && (us == [] || HoldsAlong(P, Apply(s, us[0]), us[1..]))
  }

  /** A property that holds along two batches holds along their concatenation. */
  lemma {:induction false} HoldsAlongAppend(P: seq<Step> -> bool, s: seq<Step>, a: seq<Update>, b: seq<Update>)
    requires InBounds(a, |s|) && InBounds(b, |s|)
    requires HoldsAlong(P, s, a) && HoldsAlong(P, Replay(s, a), b)
    ensures InBounds(a + b, |s|)
    ensures HoldsAlong(P, s, a + b)
    decreases |a|
  {
    if a != [] {
      assert (a + b)[0] == a[0];
      assert (a + b)[1..] == a[1..] + b;
      HoldsAlongAppend(P, Apply(s, a[0]), a[1..], b);
    } else {
      assert a + b == b;
    }
  }

  /** A property that holds along `us` holds after every prefix of `us`. */
  lemma {:induction false} HoldsAlongPrefix(P: seq<Step> -> bool, s: seq<Step>, us: seq<Update>, k: nat)
    requires InBounds(us, |s|) && HoldsAlong(P, s, us) && k <= |us|
    ensures InBounds(us[..k], |s|)
    ensures P(Replay(s, us[..k]))
    decreases k
  {
    if k == 0 {
      assert us[..k] == [];
    } else {
      assert us[..k][0] == us[0];
      assert us[..k][1..] == us[1..][..k - 1];
      HoldsAlongPrefix(P, Apply(s, us[0]), us[1..], k - 1);
    }
  }
}
