/** Shared vocabulary of the model: optional values (Python's None), calls that may raise,
    away/home pairs, first-match lookups over lists and the " at " event-name split. */
module Common {

  /** A value that Python may hold as None. */
  datatype Option<+T> = None | Some(value: T) {
    function GetOr(default: T): T {
      match this
      case Some(v) => v
      case None => default
    }
  }

  /** The outcome of a Python expression that either yields a value or raises
      (IndexError, KeyError, TypeError or ValueError; the kind is not modelled). */
  datatype Fallible<+T> = Ok(value: T) | Raises

  /** A pair keyed by side. The total market reuses it as (under, over). */
  datatype HomeAway<+T> = HomeAway(away: T, home: T)

  /** `next(iter([x for x in xs if p(x)]), None)`: the first element satisfying p, if any. */
  function First<T>(xs: seq<T>, p: T -> bool): Option<T> {
    if xs == [] then None
    else if p(xs[0]) then Some(xs[0])
    else First(xs[1..], p)
  }

  /** First finds an element exactly when one satisfies p, and what it finds is the element at
      the earliest such position. */
  lemma {:induction false} FirstFinds<T>(xs: seq<T>, p: T -> bool)
    ensures First(xs, p).Some? <==> exists i :: 0 <= i < |xs| && p(xs[i])
    ensures First(xs, p).Some? ==> exists i :: 0 <= i < |xs| && xs[i] == First(xs, p).value && p(xs[i]) &&
                                               forall j :: 0 <= j < i ==> !p(xs[j])
  {
    if xs != [] && !p(xs[0]) {
      FirstFinds(xs[1..], p);
      assert forall i :: 1 <= i < |xs| ==> xs[i] == xs[1..][i - 1];
      if First(xs, p).Some? {
        var i :| 0 <= i < |xs[1..]| && xs[1..][i] == First(xs, p).value && p(xs[1..][i]) &&
                 forall j :: 0 <= j < i ==> !p(xs[1..][j]);
        assert xs[i + 1] == First(xs, p).value;
        forall j | 0 <= j < i + 1 ensures !p(xs[j]) {
          if j > 0 { assert xs[j] == xs[1..][j - 1]; }
        }
      }
    }
  }

  /** `[x for x in xs if p(x)][0]`: the first element satisfying p, raising IndexError when none does. */
  function FirstOrRaise<T>(xs: seq<T>, p: T -> bool): (r: Fallible<T>)
    ensures r.Ok? <==> First(xs, p).Some?
    ensures r.Ok? ==> r.value == First(xs, p).value
  {
    match First(xs, p)
    case Some(x) => Ok(x)
    case None => Raises
  }

  /** The separator between the two team names of an event name ("Away at Home"). */
  const Separator: string := " at "

  /** Whether sep occurs in s starting at position k. */
  predicate OccursAt(s: string, sep: string, k: nat) {
    k + |sep| <= |s| && s[k..k + |sep|] == sep
  }

  predicate Contains(s: string, sep: string) {
    exists k: nat | k <= |s| :: OccursAt(s, sep, k)
  }

  /** `s.index(sep)`: the first position of sep in s; None where Python raises ValueError. */
  function IndexOf(s: string, sep: string, from: nat := 0): (r: Option<nat>)
    requires from <= |s|
    requires forall k: nat :: k < from ==> !OccursAt(s, sep, k)
    ensures r.Some? ==> OccursAt(s, sep, r.value) && forall k: nat :: k < r.value ==> !OccursAt(s, sep, k)
    ensures r.None? ==> !Contains(s, sep)
    decreases |s| - from
  {
    if OccursAt(s, sep, from) then Some(from)
    else if from + |sep| >= |s| then
      assert forall k: nat :: from <= k ==> !OccursAt(s, sep, k) by {
        forall k: nat | from <= k ensures !OccursAt(s, sep, k) {
          if k > from { assert k + |sep| > |s| || sep == []; }
        }
      }
      None
    else IndexOf(s, sep, from + 1)
  }

  /** `(name[:name.index(" at ")], name[name.index(" at ") + 4:])`; None where index raises. */
  function SplitName(name: string): (r: Option<HomeAway<string>>)
    ensures r.None? <==> !Contains(name, Separator)
    ensures r.Some? ==> r.value.away + Separator + r.value.home == name
    ensures r.Some? ==> forall k: nat :: k < |r.value.away| ==> !OccursAt(name, Separator, k)
  {
    match IndexOf(name, Separator)
    case None => None
    case Some(i) =>
      assert name == name[..i] + Separator + name[i + 4..];
      Some(HomeAway(name[..i], name[i + 4..]))
  }

  /** Joining two names and splitting them again recovers both, provided the away name,
      followed by the separator's leading space, holds no separator. (A name ending in " at"
      is thus excluded: its end completes a separator that precedes the intended one.) */
  lemma {:induction false} SplitJoin(away: string, home: string)
    requires !Contains(away + " ", Separator)
    ensures SplitName(away + Separator + home) == Some(HomeAway(away, home))
  {
    var name := away + Separator + home;
    assert OccursAt(name, Separator, |away|) by {
      assert name[|away|..|away| + 4] == Separator;
    }
    forall k: nat | k < |away| ensures !OccursAt(name, Separator, k) {
      if k + 4 <= |away| + 1 {
        assert name[k..k + 4] == (away + " ")[k..k + 4];
        assert !OccursAt(away + " ", Separator, k);
      } else {
        assert name[k..k + 4][|away| - k] == ' ' != Separator[|away| - k];
      }
    }
    var i := IndexOf(name, Separator).value;
    assert i == |away|;
    assert name[..i] == away;
    assert name[i + 4..] == home;
  }

  /** The excluded case is real: an away name ending in " at" does not survive the round trip. */
  lemma SplitJoinNeedsItsCondition()
    ensures SplitName("Ex at" + Separator + "Home") == Some(HomeAway("Ex", "at Home"))
  {
    var name := "Ex at" + Separator + "Home";
    assert OccursAt(name, Separator, 2);
    assert name[0] == 'E' && name[1] == 'x';
    assert !OccursAt(name, Separator, 0) && !OccursAt(name, Separator, 1);
    assert IndexOf(name, Separator) == Some(2);
    assert name[..2] == "Ex";
    assert name[6..] == "at Home";
  }
}
