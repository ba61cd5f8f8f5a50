/** The aggregation of src/components/admin/AdminDashboard.jsx: device counts
    by type, per-model tallies keyed by the normalised model name, the five most
    registered models of each kind, and the per-type device views. */
module AdminDashboard {
  import opened Common

  // ---------------------------------------------------------------------------
  // Model-name normalisation: (device.model || "").toLowerCase().trim()
  // ---------------------------------------------------------------------------

  /** The characters String.prototype.trim removes that this model knows of. */
  predicate IsSpace(c: char) {
    c == ' ' || c == '\t' || c == '\n' || c == '\r' || c == '\U{000B}' || c == '\U{000C}'
    || c == '\U{00A0}' || c == '\U{FEFF}'
  }

  predicate IsUpper(c: char) {
    'A' <= c <= 'Z'
  }

  function LowerChar(c: char): (r: char)
    ensures !IsUpper(r)
    ensures IsSpace(r) <==> IsSpace(c)
  {
    if IsUpper(c) then (c as int + 32) as char else c
  }

  /** String.prototype.toLowerCase on the ASCII letters: each character lowered on its own. */
  function ToLower(s: string): (r: string)
    ensures |r| == |s|
    ensures forall i :: 0 <= i < |s| ==> r[i] == LowerChar(s[i])
    ensures NoUpper(r)
  {
    seq(|s|, i requires 0 <= i < |s| => LowerChar(s[i]))
  }

  /** Leading white space removed: a suffix of s that does not start with a space. */
  function TrimStart(s: string): (r: string)
    ensures |r| <= |s| && r == s[|s| - |r|..]
    ensures r == [] || !IsSpace(r[0])
    ensures forall i :: 0 <= i < |s| - |r| ==> IsSpace(s[i])
    decreases |s|
  {
    if s != [] && IsSpace(s[0]) then TrimStart(s[1..]) else s
  }

  /** Trailing white space removed: a prefix of s that does not end with a space. */
  function TrimEnd(s: string): (r: string)
    ensures |r| <= |s| && r == s[..|r|]
    ensures r == [] || !IsSpace(r[|r| - 1])
    ensures forall i :: |r| <= i < |s| ==> IsSpace(s[i])
    decreases |s|
  {
    if s != [] && IsSpace(s[|s| - 1]) then TrimEnd(s[..|s| - 1]) else s
  }

  predicate NoUpper(s: string) {
    forall i :: 0 <= i < |s| ==> !IsUpper(s[i])
  }

  /** r is s with a run of white space cut from each end. */
  ghost predicate IsTrimOf(r: string, s: string) {
    exists i, j :: 0 <= i <= j <= |s| && r == s[i..j]
                   && (forall k :: 0 <= k < i ==> IsSpace(s[k]))
                   && (forall k :: j <= k < |s| ==> IsSpace(s[k]))
  }

  /** String.prototype.trim: leading and then trailing white space removed. */
  function Trim(s: string): (r: string)
    ensures IsTrimOf(r, s)
    ensures r == [] || (!IsSpace(r[0]) && !IsSpace(r[|r| - 1]))
    ensures r == [] <==> forall k :: 0 <= k < |s| ==> IsSpace(s[k])
    ensures NoUpper(s) ==> NoUpper(r)
  {
    TrimSlice(s);
    TrimNoUpper(s);
    TrimEnds(s);
    TrimEmpty(s);
    TrimEnd(TrimStart(s))
  }

  lemma TrimSlice(s: string)
    ensures IsTrimOf(TrimEnd(TrimStart(s)), s)
  {
    var t := TrimStart(s);
    var r := TrimEnd(t);
    var i := |s| - |t|;
    var j := i + |r|;
    SliceOfSuffix(s, t, r, i);
    TrailingSpaces(s, t, r, i);
    TrimWitness(r, s, i, j);
  }

  /** The slice s[i..j] with only white space outside it is a trim of s. */
  lemma TrimWitness(r: string, s: string, i: int, j: int)
    requires 0 <= i <= j <= |s| && r == s[i..j]
    requires forall k :: 0 <= k < i ==> IsSpace(s[k])
    requires forall k :: j <= k < |s| ==> IsSpace(s[k])
    ensures IsTrimOf(r, s)
  {
  }

  /** A prefix of the suffix s[i..] is a slice of s starting at i. */
  lemma SliceOfSuffix(s: string, t: string, r: string, i: int)
    requires 0 <= i <= |s| && t == s[i..] && |r| <= |t| && r == t[..|r|]
    ensures r == s[i..i + |r|]
  {
    assert t[..|r|] == s[i..i + |r|];
  }

  lemma TrimNoUpper(s: string)
    ensures NoUpper(s) ==> NoUpper(TrimEnd(TrimStart(s)))
  {
    var t := TrimStart(s);
    var r := TrimEnd(t);
    assert forall k :: 0 <= k < |r| ==> r[k] == s[|s| - |t| + k];
  }

  /** The white space TrimEnd removes from the suffix t of s is white space of s. */
  lemma TrailingSpaces(s: string, t: string, r: string, i: int)
    requires 0 <= i <= |s| && t == s[i..] && r == TrimEnd(t)
    ensures forall k :: i + |r| <= k < |s| ==> IsSpace(s[k])
  {
    forall k | i + |r| <= k < |s|
      ensures IsSpace(s[k])
    {
      assert s[k] == t[k - i];
    }
  }

  lemma TrimEnds(s: string)
    ensures var r := TrimEnd(TrimStart(s));
            r == [] || (!IsSpace(r[0]) && !IsSpace(r[|r| - 1]))
  {
    var t := TrimStart(s);
    var r := TrimEnd(t);
    assert r != [] ==> r[0] == t[0];
  }

  lemma TrimEmpty(s: string)
    ensures TrimEnd(TrimStart(s)) == [] <==> forall k :: 0 <= k < |s| ==> IsSpace(s[k])
  {
    var t := TrimStart(s);
    var r := TrimEnd(t);
    var i := |s| - |t|;
    if r == [] {
      assert t == s[i..];
    } else {
      assert r[0] == t[0] == s[i];
      TrimEnds(s);
    }
  }

  /** The tally key of a device: the lower-cased model with its outer white
      space removed; "" when the model is missing or only white space. */
  function ModelKey(model: Option<string>): (k: string)
    ensures IsTrimOf(k, ToLower(model.GetOr("")))
    ensures k == "" <==> model.None? || forall i :: 0 <= i < |model.value| ==> IsSpace(model.value[i])
    ensures NoUpper(k)
    ensures k == [] || (!IsSpace(k[0]) && !IsSpace(k[|k| - 1]))
  {
    var m := model.GetOr("");
    var lowered := ToLower(m);
    assert (forall i :: 0 <= i < |lowered| ==> IsSpace(lowered[i])) <==> (forall i :: 0 <= i < |m| ==> IsSpace(m[i]));
    Trim(lowered)
  }

  // ---------------------------------------------------------------------------
  // Tallies: a JavaScript object used as a dictionary from model to count.
  // Object.entries lists its keys in insertion order, so the dictionary is an
  // association list in the order the keys were first added.
  // ---------------------------------------------------------------------------

  /** One [model, count] pair; after the final .map it is the chart's { name, value }. */
  datatype Entry = Entry(name: string, count: nat)

  function Names(d: seq<Entry>): set<string>
    decreases |d|
  {
    if d == [] then {} else {d[0].name} + Names(d[1..])
  }

  /** No key appears twice. */
  predicate DistinctNames(d: seq<Entry>)
    decreases |d|
  {
    d == [] || (d[0].name !in Names(d[1..]) && DistinctNames(d[1..]))
  }

  /** Every stored count is at least 1. */
  predicate Positive(d: seq<Entry>) {
    forall i :: 0 <= i < |d| ==> d[i].count >= 1
  }

  /** dict[key] || 0 */
  function Get(d: seq<Entry>, key: string): (n: nat)
    ensures key !in Names(d) ==> n == 0
    ensures Positive(d) && key in Names(d) ==> n >= 1
    decreases |d|
  {
    if d == [] then 0 else if d[0].name == key then d[0].count else Get(d[1..], key)
  }

  /** The sum of all counts. */
  function Total(d: seq<Entry>): nat
    decreases |d|
  {
    if d == [] then 0 else d[0].count + Total(d[1..])
  }

  /** dict[key] = (dict[key] || 0) + 1, a new key going to the end. */
  function Bump(d: seq<Entry>, key: string): (r: seq<Entry>)
    ensures Names(r) == Names(d) + {key}
    ensures Get(r, key) == Get(d, key) + 1
    ensures forall k :: k != key ==> Get(r, k) == Get(d, k)
    ensures Total(r) == Total(d) + 1
    ensures DistinctNames(d) ==> DistinctNames(r)
    ensures Positive(d) ==> Positive(r)
    decreases |d|
  {
    if d == [] then [Entry(key, 1)]
    else if d[0].name == key then [Entry(key, d[0].count + 1)] + d[1..]
    else [d[0]] + Bump(d[1..], key)
  }

  /** Whether a device is counted in the phone tally (phones) or the laptop tally (!phones):
      its key is non-empty, and it is a "telefono" exactly for the phone tally. */
  predicate Tallied(dev: Device, phones: bool) {
    ModelKey(dev.model) != "" && (dev.deviceType == "telefono") == phones
  }

  function TalliedBy(phones: bool): Device -> bool {
    dev => Tallied(dev, phones)
  }

  function TalliedWithKey(phones: bool, key: string): Device -> bool {
    dev => Tallied(dev, phones) && ModelKey(dev.model) == key
  }

  /** The dictionary after the forEach has seen ds, for one of the two tallies. */
  function TallyModels(ds: seq<Device>, phones: bool): (d: seq<Entry>)
    ensures DistinctNames(d) && Positive(d)
    decreases |ds|
  {
    if ds == [] then []
    else
      var last := ds[|ds| - 1];
      var prev := TallyModels(ds[..|ds| - 1], phones);
      if Tallied(last, phones) then Bump(prev, ModelKey(last.model)) else prev
  }

  /** One step of the forEach: the device at index i is added to the tally it belongs to. */
  lemma TallyStep(ds: seq<Device>, i: int, phones: bool)
    requires 0 <= i < |ds|
    ensures TallyModels(ds[..i + 1], phones) ==
              if Tallied(ds[i], phones) then Bump(TallyModels(ds[..i], phones), ModelKey(ds[i].model))
              else TallyModels(ds[..i], phones)
  {
    assert ds[..i + 1][..i] == ds[..i];
  }

  /** The counts add up to the number of tallied devices. */
  lemma {:induction false} TallyTotal(ds: seq<Device>, phones: bool)
    ensures Total(TallyModels(ds, phones)) == |Filter(ds, TalliedBy(phones))|
    decreases |ds|
  {
    if ds != [] {
      var n := |ds| - 1;
      assert ds == ds[..n] + [ds[n]];
      TallyTotal(ds[..n], phones);
      FilterConcat(ds[..n], [ds[n]], TalliedBy(phones));
      FilterSingleton(ds[n], TalliedBy(phones));
    }
  }

  /** The count stored for a key is the number of tallied devices with that key. */
  lemma {:induction false} TallyCount(ds: seq<Device>, phones: bool, key: string)
    ensures Get(TallyModels(ds, phones), key) == |Filter(ds, TalliedWithKey(phones, key))|
    decreases |ds|
  {
    if ds != [] {
      var n := |ds| - 1;
      assert ds == ds[..n] + [ds[n]];
      TallyCount(ds[..n], phones, key);
      FilterConcat(ds[..n], [ds[n]], TalliedWithKey(phones, key));
      FilterSingleton(ds[n], TalliedWithKey(phones, key));
    }
  }

  /** Every non-telefono device with a non-empty key, of any type, is counted in the laptop tally. */
  lemma OtherTypesCountAsLaptops(ds: seq<Device>, i: int)
    requires 0 <= i < |ds| && ds[i].deviceType != "telefono" && ModelKey(ds[i].model) != ""
    ensures Get(TallyModels(ds, false), ModelKey(ds[i].model)) >= 1
  {
    var key := ModelKey(ds[i].model);
    TallyCount(ds, false, key);
    assert TalliedWithKey(false, key)(ds[i]);
    assert ds[i] in Filter(ds, TalliedWithKey(false, key));
  }

  // ---------------------------------------------------------------------------
  // Top five: Object.entries(d).sort(([, a], [, b]) => b - a).slice(0, 5)
  // Array.prototype.sort is stable, so equal counts keep insertion order.
  // ---------------------------------------------------------------------------

  predicate SortedDesc(s: seq<Entry>) {
    forall i, j :: 0 <= i < j < |s| ==> s[i].count >= s[j].count
  }

  /** Insert e before the first entry whose count does not exceed its own. */
  function InsertDesc(e: Entry, s: seq<Entry>): (r: seq<Entry>)
    ensures multiset(r) == multiset(s) + multiset{e}
    decreases |s|
  {
    if s == [] || e.count >= s[0].count then [e] + s
    else
      assert s == [s[0]] + s[1..];
      [s[0]] + InsertDesc(e, s[1..])
  }

  /** Inserting an entry no larger than a bound into entries no larger than it keeps them all below it. */
  lemma {:induction false} InsertDescBelow(e: Entry, s: seq<Entry>, b: nat)
    requires e.count <= b && forall i :: 0 <= i < |s| ==> s[i].count <= b
    ensures forall i :: 0 <= i < |InsertDesc(e, s)| ==> InsertDesc(e, s)[i].count <= b
    decreases |s|
  {
    if s != [] && e.count < s[0].count {
      InsertDescBelow(e, s[1..], b);
      assert InsertDesc(e, s) == [s[0]] + InsertDesc(e, s[1..]);
    }
  }

  lemma {:induction false} InsertDescSorted(e: Entry, s: seq<Entry>)
    requires SortedDesc(s)
    ensures SortedDesc(InsertDesc(e, s))
    decreases |s|
  {
    if s != [] && e.count < s[0].count {
      var rest := InsertDesc(e, s[1..]);
      InsertDescSorted(e, s[1..]);
      InsertDescBelow(e, s[1..], s[0].count);
      var r := [s[0]] + rest;
      assert r == InsertDesc(e, s);
      forall i, j | 0 <= i < j < |r|
        ensures r[i].count >= r[j].count
      {
        if i > 0 {
          assert r[i] == rest[i - 1] && r[j] == rest[j - 1];
        } else {
          assert r[j] == rest[j - 1];
        }
      }
    }
  }

  /** A stable sort by descending count. */
  function SortDesc(d: seq<Entry>): (r: seq<Entry>)
    ensures multiset(r) == multiset(d)
    decreases |d|
  {
    if d == [] then []
    else
      assert d == [d[0]] + d[1..];
      InsertDesc(d[0], SortDesc(d[1..]))
  }

  lemma {:induction false} SortDescSorted(d: seq<Entry>)
    ensures SortedDesc(SortDesc(d))
    decreases |d|
  {
    if d != [] {
      SortDescSorted(d[1..]);
      InsertDescSorted(d[0], SortDesc(d[1..]));
    }
  }

  /** `.sort((a, b) => b[1] - a[1]).slice(0, 5)`: the first five entries of the
      stable descending sort, or all of them when there are fewer. */
  function TopFive(d: seq<Entry>): (r: seq<Entry>)
    ensures |r| == if |d| < 5 then |d| else 5
    ensures r == SortDesc(d)[..|r|]
  {
    var s := SortDesc(d);
    assert |s| == |multiset(s)| == |multiset(d)| == |d|;
    s[..if |s| < 5 then |s| else 5]
  }

  lemma {:induction false} GetOfMember(d: seq<Entry>, e: Entry)
    requires DistinctNames(d) && e in d
    ensures Get(d, e.name) == e.count
    decreases |d|
  {
    if d[0] != e {
      assert e in d[1..];
      NameOfMember(d[1..], e);
      GetOfMember(d[1..], e);
    }
  }

  lemma {:induction false} NameOfMember(d: seq<Entry>, e: Entry)
    requires e in d
    ensures e.name in Names(d)
    decreases |d|
  {
    if d[0] != e {
      assert e in d[1..];
      NameOfMember(d[1..], e);
    }
  }

  /** Every entry kept carries the tally's count for its model. */
  lemma TopFiveCounts(d: seq<Entry>)
    requires DistinctNames(d)
    ensures forall i :: 0 <= i < |TopFive(d)| ==> Get(d, TopFive(d)[i].name) == TopFive(d)[i].count
  {
    var s := SortDesc(d);
    var t := TopFive(d);
    forall i | 0 <= i < |t|
      ensures Get(d, t[i].name) == t[i].count
    {
      assert t[i] == s[i];
      assert s[i] in multiset(s);
      assert t[i] in d;
      GetOfMember(d, t[i]);
    }
  }

  /** An entry left out means five were kept, each counted at least as much. */
  lemma TopFiveOmitted(d: seq<Entry>, e: Entry)
    requires e in d && e !in TopFive(d)
    ensures |TopFive(d)| == 5 && e.count <= TopFive(d)[4].count
  {
    var s := SortDesc(d);
    var t := TopFive(d);
    SortDescSorted(d);
    assert e in multiset(d);
    assert e in s;
    var j :| 0 <= j < |s| && s[j] == e;
    assert forall k :: 0 <= k < |t| ==> t[k] == s[k];
    assert j >= |t|;
  }

  /** topPhones / topLaptops: at most five entries, in non-increasing order,
      each with the tally's count for its model, and every model left out
      counted no more than the last one kept. */
  lemma TopFiveSpec(d: seq<Entry>)
    requires DistinctNames(d)
    ensures var t := TopFive(d);
            |t| == (if |d| < 5 then |d| else 5) &&
            SortedDesc(t) &&
            (forall i :: 0 <= i < |t| ==> Get(d, t[i].name) == t[i].count) &&
            (forall e :: e in d && e !in t ==> |t| == 5 && e.count <= t[4].count)
  {
    var s := SortDesc(d);
    var t := TopFive(d);
    SortDescSorted(d);
    assert |s| == |multiset(s)| == |multiset(d)| == |d|;
    TopFiveCounts(d);
    forall e | e in d && e !in t
      ensures |t| == 5 && e.count <= t[4].count
    {
      TopFiveOmitted(d, e);
    }
  }

  // ---------------------------------------------------------------------------
  // The statistics
  // ---------------------------------------------------------------------------

  /** One bar of the decision charts, as the backend sends it. */
  datatype ChartItem = ChartItem(name: string, value: int)

  /** The body of /decisions/admin; a list is None when the field is absent. */
  datatype DecisionTotals = DecisionTotals(decisionesUso: Option<seq<ChartItem>>, decisionesFinVida: Option<seq<ChartItem>>)

  datatype Stats = Stats(
    totalDevices: nat,
    totalUsers: int,
    phoneCount: nat,
    laptopCount: nat,
    topPhones: seq<Entry>,
    topLaptops: seq<Entry>,
    decisionesUso: seq<ChartItem>,
    decisionesFinVida: seq<ChartItem>)

  /** The initial state of `stats`, kept when a request fails. */
  const InitialStats := Stats(0, 0, 0, 0, [], [], [], [])

  /** What the statistics are for the three responses: the list length, the
      per-type counts, the five most tallied models of each kind, and the
      defaults 0 and [] for a missing user total or decision list. */
  predicate StatsFor(stats: Stats, devicesData: Option<seq<Device>>, usersTotal: Option<int>, decisionsData: Option<DecisionTotals>) {
    var list := devicesData.GetOr([]);
    var totals := decisionsData.GetOr(DecisionTotals(None, None));
    && stats.totalDevices == |list|
    && stats.phoneCount == |Filter(list, OfType("telefono"))|
    && stats.laptopCount == |Filter(list, OfType("laptop"))|
    && stats.topPhones == TopFive(TallyModels(list, true))
    && stats.topLaptops == TopFive(TallyModels(list, false))
    && stats.totalUsers == (if usersTotal.None? || usersTotal.value == 0 then 0 else usersTotal.value)
    && stats.decisionesUso == totals.decisionesUso.GetOr([])
    && stats.decisionesFinVida == totals.decisionesFinVida.GetOr([])
  }

  /** The forEach callback: a device with a non-empty key bumps its count in
      phoneModels when it is a "telefono" and in laptopModels otherwise. */
  method TallyDevice(phones: seq<Entry>, laptops: seq<Entry>, device: Device)
    returns (phoneModels: seq<Entry>, laptopModels: seq<Entry>)
    ensures phoneModels == if Tallied(device, true) then Bump(phones, ModelKey(device.model)) else phones
    ensures laptopModels == if Tallied(device, false) then Bump(laptops, ModelKey(device.model)) else laptops
  {
    phoneModels, laptopModels := phones, laptops;
    var model := ModelKey(device.model);
    if model != "" {
      if device.deviceType == "telefono" {
        phoneModels := Bump(phoneModels, model);
      } else {
        laptopModels := Bump(laptopModels, model);
      }
    }
  }

  /** The forEach over the device list that fills phoneModels and laptopModels. */
  method TallyAll(devicesList: seq<Device>) returns (phoneModels: seq<Entry>, laptopModels: seq<Entry>)
    ensures phoneModels == TallyModels(devicesList, true)
    ensures laptopModels == TallyModels(devicesList, false)
  {
    phoneModels := [];
    laptopModels := [];
    var i := 0;
    while i < |devicesList|
      invariant 0 <= i <= |devicesList|
      invariant phoneModels == TallyModels(devicesList[..i], true)
      invariant laptopModels == TallyModels(devicesList[..i], false)
    {
      TallyStep(devicesList, i, true);
      TallyStep(devicesList, i, false);
      phoneModels, laptopModels := TallyDevice(phoneModels, laptopModels, devicesList[i]);
      i := i + 1;
    }
    assert devicesList[..i] == devicesList;
  }

  /** The body of fetchAdminStats once the three responses are in. `devicesData`
      and `decisionsData` are None when the response body is empty; `usersTotal`
      is None when `totalUsers` is missing. */
  method ComputeStats(devicesData: Option<seq<Device>>, usersTotal: Option<int>, decisionsData: Option<DecisionTotals>)
    returns (stats: Stats)
    ensures StatsFor(stats, devicesData, usersTotal, decisionsData)
    ensures stats.phoneCount + stats.laptopCount <= stats.totalDevices
  {
    var devicesList := devicesData.GetOr([]);
    var totalDevices := |devicesList|;
    var phoneCount := |Filter(devicesList, OfType("telefono"))|;
    var laptopCount := |Filter(devicesList, OfType("laptop"))|;
    FilterDisjointCounts(devicesList, OfType("telefono"), OfType("laptop"));

    var phoneModels, laptopModels := TallyAll(devicesList);

    var topPhones := TopFive(phoneModels);
    var topLaptops := TopFive(laptopModels);

    var totals := decisionsData.GetOr(DecisionTotals(None, None));
    var users := if usersTotal.None? || usersTotal.value == 0 then 0 else usersTotal.value;
    stats := Stats(totalDevices, users, phoneCount, laptopCount, topPhones, topLaptops,
                   totals.decisionesUso.GetOr([]), totals.decisionesFinVida.GetOr([]));
  }

  /** The device list the per-type buttons show: (response.data || []).filter(d => d.type === t). */
  function DevicesOfType(data: Option<seq<Device>>, t: string): (r: seq<Device>)
    ensures forall i :: 0 <= i < |r| ==> r[i].deviceType == t && r[i] in data.GetOr([])
    ensures forall d :: d in data.GetOr([]) && d.deviceType == t ==> d in r
    ensures IsSubsequence(r, data.GetOr([]))
    ensures forall d :: multiset(r)[d] == if d.deviceType == t then multiset(data.GetOr([]))[d] else 0
  {
    FilterIsSubsequence(data.GetOr([]), OfType(t));
    FilterMultiplicity(data.GetOr([]), OfType(t));
    Filter(data.GetOr([]), OfType(t))
  }

  /** A row of /users/admin. */
  datatype User = User(id: int, email: string)

  datatype View = DashboardView | DevicesView | UsersView

  /** The component state touched by the statistics load and the device views. */
  class Dashboard {
    var stats: Stats
    var devices: seq<Device>
    var users: seq<User>
    var view: View
    var loading: bool

    constructor ()
      ensures stats == InitialStats && devices == [] && users == [] && view == DashboardView && loading
    {
      stats := InitialStats;
      devices := [];
      users := [];
      view := DashboardView;
      loading := true;
    }

    /** fetchAdminStats: on success the stats are replaced; either way loading ends. */
    method FetchAdminStats(ok: bool, devicesData: Option<seq<Device>>, usersTotal: Option<int>, decisionsData: Option<DecisionTotals>)
      modifies this
      ensures !loading && devices == old(devices) && view == old(view)
      ensures users == old(users)
      ensures !ok ==> stats == old(stats)
      ensures ok ==> StatsFor(stats, devicesData, usersTotal, decisionsData)
      ensures ok ==> stats.phoneCount + stats.laptopCount <= stats.totalDevices
    {
      if ok {
        stats := ComputeStats(devicesData, usersTotal, decisionsData);
      }
      loading := false;
    }

    /** showPhones / showLaptops: on success the view lists the devices of that type. */
    method ShowType(ok: bool, data: Option<seq<Device>>, t: string)
      modifies this
      ensures stats == old(stats) && loading == old(loading) && users == old(users)
      ensures ok ==> devices == DevicesOfType(data, t) && view == DevicesView
      ensures !ok ==> devices == old(devices) && view == old(view)
    {
      if ok {
        devices := DevicesOfType(data, t);
        view := DevicesView;
      }
    }

    method ShowPhones(ok: bool, data: Option<seq<Device>>)
      modifies this
      ensures stats == old(stats) && loading == old(loading) && users == old(users)
      ensures ok ==> devices == DevicesOfType(data, "telefono") && view == DevicesView
      ensures !ok ==> devices == old(devices) && view == old(view)
    {
      ShowType(ok, data, "telefono");
    }

    method ShowLaptops(ok: bool, data: Option<seq<Device>>)
      modifies this
      ensures stats == old(stats) && loading == old(loading) && users == old(users)
      ensures ok ==> devices == DevicesOfType(data, "laptop") && view == DevicesView
      ensures !ok ==> devices == old(devices) && view == old(view)
    {
      ShowType(ok, data, "laptop");
    }

    /** showAllDevices: on success the view lists every device, or none for an empty body. */
    method ShowAllDevices(ok: bool, data: Option<seq<Device>>)
      modifies this
      ensures stats == old(stats) && loading == old(loading) && users == old(users)
      ensures ok ==> devices == data.GetOr([]) && view == DevicesView
      ensures !ok ==> devices == old(devices) && view == old(view)
    {
      if ok {
        devices := data.GetOr([]);
        view := DevicesView;
      }
    }

    /** showAllUsers: on success the view lists the users, or none for an empty body. */
    method ShowAllUsers(ok: bool, data: Option<seq<User>>)
      modifies this
      ensures stats == old(stats) && loading == old(loading) && devices == old(devices)
      ensures ok ==> users == data.GetOr([]) && view == UsersView
      ensures !ok ==> users == old(users) && view == old(view)
    {
      if ok {
        users := data.GetOr([]);
        view := UsersView;
      }
    }

    /** goBackToDashboard: only the view changes. */
    method GoBackToDashboard()
      modifies this
      ensures view == DashboardView
      ensures stats == old(stats) && devices == old(devices) && users == old(users) && loading == old(loading)
    {
      view := DashboardView;
    }
  }
}
