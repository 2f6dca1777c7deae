/** The profile page `Frontend/src/page/ProfilePage.jsx`: the heat-map colour of
    a day, the submission and active-day totals, the longest streak of active
    days and the edit toggle.

    Dates are opaque keys: the scan is given the sequence of day keys from the
    start date to today, and the calendar arithmetic that produces them is not
    part of this model. */
module ProfilePage {
  import opened Wrappers
  import opened Seqs

  /** One heat-map entry: a date key and the number of submissions that day. */
  datatype HeatEntry = HeatEntry(date: string, count: nat)

  const HeatmapColors: seq<string> := ["#ebedf0", "#c6e48b", "#7bc96f", "#239a3b", "#196127"]
  const HeatmapThresholds: seq<nat> := [1, 3, 5, 8]

  /** The `reduce` over the thresholds: each threshold the count reaches replaces
      the accumulator with its position plus one. */
  function ThresholdFold(ts: seq<nat>, count: nat): (idx: nat)
    ensures idx <= |ts|
  {
    if ts == [] then 0
    else if count >= ts[|ts| - 1] then |ts|
    else ThresholdFold(ts[..|ts| - 1], count)
  }

  /** The number of thresholds the count reaches. */
  function Reached(ts: seq<nat>, count: nat): nat {
    if ts == [] then 0 else Reached(ts[..|ts| - 1], count) + (if count >= ts[|ts| - 1] then 1 else 0)
  }

  predicate Increasing(ts: seq<nat>) {
    forall i, j :: 0 <= i < j < |ts| ==> ts[i] < ts[j]
  }

  lemma {:induction false} ReachedNone(ts: seq<nat>, count: nat)
    requires forall i :: 0 <= i < |ts| ==> count < ts[i]
    ensures Reached(ts, count) == 0
  {
    if ts != [] {
      ReachedNone(ts[..|ts| - 1], count);
    }
  }

  lemma {:induction false} ReachedAll(ts: seq<nat>, count: nat)
    requires forall i :: 0 <= i < |ts| ==> count >= ts[i]
    ensures Reached(ts, count) == |ts|
  {
    if ts != [] {
      ReachedAll(ts[..|ts| - 1], count);
    }
  }

  /** Over increasing thresholds the fold counts the thresholds reached. */
  lemma {:induction false} FoldCountsReached(ts: seq<nat>, count: nat)
    requires Increasing(ts)
    ensures ThresholdFold(ts, count) == Reached(ts, count)
  {
    if ts != [] {
      var init := ts[..|ts| - 1];
      if count >= ts[|ts| - 1] {
        ReachedAll(init, count);
      } else {
        FoldCountsReached(init, count);
      }
    }
  }

  lemma {:induction false} ReachedMonotone(ts: seq<nat>, a: nat, b: nat)
    requires a <= b
    ensures Reached(ts, a) <= Reached(ts, b)
  {
    if ts != [] {
      ReachedMonotone(ts[..|ts| - 1], a, b);
    }
  }

  /** The colour index of `styleForValue`: 0 for a missing value or a count of
      0, otherwise the fold over the thresholds. */
  function ColorIndex(value: Option<HeatEntry>): (idx: nat)
    ensures idx < |HeatmapColors|
    ensures value.None? || value.value.count == 0 ==> idx == 0
    ensures value.Some? ==> idx == Reached(HeatmapThresholds, value.value.count)
  {
    FoldCountsReached(HeatmapThresholds, if value.Some? then value.value.count else 0);
    ReachedNone(HeatmapThresholds, 0);
    if value.None? || value.value.count == 0 then 0
    else ThresholdFold(HeatmapThresholds, value.value.count)
  }

  /** `styleForValue(value).fill`. */
  function Fill(value: Option<HeatEntry>): (fill: string)
    ensures fill in HeatmapColors
    ensures value.None? || value.value.count == 0 ==> fill == HeatmapColors[0]
  {
    HeatmapColors[ColorIndex(value)]
  }

  /** More submissions never give a lighter colour. */
  lemma ColorIndexMonotone(a: HeatEntry, b: HeatEntry)
    requires a.count <= b.count
    ensures ColorIndex(Some(a)) <= ColorIndex(Some(b))
  {
    ReachedMonotone(HeatmapThresholds, a.count, b.count);
  }

  /** `totalSubs`: the sum of the counts. */
  function TotalSubs(data: seq<HeatEntry>): nat {
    if data == [] then 0 else TotalSubs(data[..|data| - 1]) + data[|data| - 1].count
  }

  predicate Active(e: HeatEntry) {
    e.count > 0
  }

  /** `activeDays`: the number of entries with a positive count. */
  function ActiveDays(data: seq<HeatEntry>): (n: nat)
    ensures n <= |data|
    ensures n == 0 <==> forall i :: 0 <= i < |data| ==> data[i].count == 0
  {
    var active := Filter(data, Active);
    assert active != [] ==> active[0] in active;
    assert (exists i :: 0 <= i < |data| && data[i].count > 0) ==> active != [] by {
      if i :| 0 <= i < |data| && data[i].count > 0 {
        assert data[i] in data && Active(data[i]);
      }
    }
    |active|
  }

  /** `activeSet`: the dates of the entries with a positive count. */
  function ActiveSet(data: seq<HeatEntry>): (dates: set<string>)
    ensures forall d :: d in dates <==> exists i :: 0 <= i < |data| && data[i].date == d && data[i].count > 0
  {
    set i | 0 <= i < |data| && data[i].count > 0 :: data[i].date
  }

  /** Each active day holds at least one submission: the active days are at most
      the entries and at most the submissions. */
  lemma {:induction false} ActiveDaysBounds(data: seq<HeatEntry>)
    ensures ActiveDays(data) <= |data|
    ensures ActiveDays(data) <= TotalSubs(data)
  {
    if data != [] {
      var init := data[..|data| - 1];
      ActiveDaysBounds(init);
      FilterSnoc(init, data[|data| - 1], Active);
      assert init + [data[|data| - 1]] == data;
    }
  }

  lemma {:induction false} FilterSnoc<T(!new)>(s: seq<T>, x: T, keep: T -> bool)
    ensures Filter(s + [x], keep) == Filter(s, keep) + (if keep(x) then [x] else [])
  {
    if s == [] {
      assert [] + [x] == [x];
    } else {
      FilterSnoc(s[1..], x, keep);
      assert (s + [x])[1..] == s[1..] + [x];
      assert (s + [x])[0] == s[0];
    }
  }

  /** The length of the run of active days that ends with the last day scanned. */
  function Run(days: seq<string>, active: set<string>): (n: nat)
    ensures n <= |days|
  {
    if days == [] then 0
    else if days[|days| - 1] in active then Run(days[..|days| - 1], active) + 1
    else 0
  }

  /** The longest run of active days among the days scanned. */
  function Longest(days: seq<string>, active: set<string>): (n: nat)
    ensures Run(days, active) <= n <= |days|
  {
    if days == [] then 0
    else
      var prev := Longest(days[..|days| - 1], active);
      var run := Run(days, active);
      if run > prev then run else prev
  }

  /** The streak scan: `curStreak` counts the current run of active days and
      `maxStreak` keeps the largest value it has had. */
  method MaxStreak(days: seq<string>, active: set<string>) returns (maxStreak: nat)
    ensures maxStreak == Longest(days, active)
    ensures maxStreak <= |days|
  {
    maxStreak := 0;
    var curStreak := 0;
    var i := 0;
    while i < |days|
      invariant 0 <= i <= |days|
      invariant curStreak == Run(days[..i], active)
      invariant maxStreak == Longest(days[..i], active)
      invariant curStreak <= maxStreak <= i
    {
      assert days[..i + 1][..i] == days[..i];
      if days[i] in active {
        curStreak := curStreak + 1;
        maxStreak := if maxStreak > curStreak then maxStreak else curStreak;
      } else {
        curStreak := 0;
      }
      i := i + 1;
    }
    assert days[..|days|] == days;
  }

  /** Every day in positions `a` .. `b - 1` is active. */
  predicate AllActive(days: seq<string>, active: set<string>, a: int, b: int)
    requires 0 <= a <= b <= |days|
  {
    forall j :: a <= j < b ==> days[j] in active
  }

  lemma {:induction false} RunCovers(days: seq<string>, active: set<string>, a: nat)
    requires a <= |days| && AllActive(days, active, a, |days|)
    ensures |days| - a <= Run(days, active)
  {
    if a < |days| {
      var init := days[..|days| - 1];
      RunCovers(init, active, a);
    }
  }

  lemma {:induction false} RunIsActive(days: seq<string>, active: set<string>)
    ensures AllActive(days, active, |days| - Run(days, active), |days|)
  {
    if days != [] && days[|days| - 1] in active {
      var init := days[..|days| - 1];
      RunIsActive(init, active);
      assert forall j :: 0 <= j < |init| ==> init[j] == days[j];
    }
  }

  /** `Longest` is the longest run: every stretch of consecutive active days is
      at most that long, and some stretch is exactly that long. */
  lemma {:induction false} LongestIsLongestRun(days: seq<string>, active: set<string>)
    ensures forall a, b :: 0 <= a <= b <= |days| && AllActive(days, active, a, b) ==> b - a <= Longest(days, active)
    ensures exists a, b :: 0 <= a <= b <= |days| && b - a == Longest(days, active) && AllActive(days, active, a, b)
  {
    if days == [] {
      assert AllActive(days, active, 0, 0);
    } else {
      var init := days[..|days| - 1];
      LongestIsLongestRun(init, active);
      RunIsActive(days, active);
      forall a, b | 0 <= a <= b <= |days| && AllActive(days, active, a, b)
        ensures b - a <= Longest(days, active)
      {
        if b == |days| {
          RunCovers(days, active, a);
        } else {
          assert AllActive(init, active, a, b);
        }
      }
      if Run(days, active) <= Longest(init, active) {
        var a, b :| 0 <= a <= b <= |init| && b - a == Longest(init, active) && AllActive(init, active, a, b);
        assert AllActive(days, active, a, b);
      } else {
        assert AllActive(days, active, |days| - Run(days, active), |days|);
      }
    }
  }

  /** The edit state: the toggle and the name buffer. */
  datatype EditState = EditState(editing: bool, editedName: string)

  /** `handleEditToggle`: entering edit mode with a loaded profile copies its
      name (or "") into the buffer; the toggle always flips. The profile is
      `None` before it loads, and its `name` is `None` when missing. */
  function ToggleEdit(s: EditState, profile: Option<Option<string>>): (s': EditState)
    ensures s'.editing == !s.editing
    ensures !s.editing && profile.Some? ==> s'.editedName == profile.value.GetOr("")
    ensures s.editing || profile.None? ==> s'.editedName == s.editedName
  {
    if !s.editing && profile.Some? then EditState(true, profile.value.GetOr(""))
    else s.(editing := !s.editing)
  }

  /** Opening and closing the editor on a loaded profile leaves the buffer
      holding the profile's name. */
  lemma ToggleTwiceKeepsName(s: EditState, name: Option<string>)
    requires !s.editing
    ensures ToggleEdit(ToggleEdit(s, Some(name)), Some(name)) == EditState(false, name.GetOr(""))
  {
  }
}
