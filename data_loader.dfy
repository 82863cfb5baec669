/**
 * The in-memory attendance model (days of sessions), its construction from an
 * already-parsed dataset, the first-match lookup by session id, and the
 * read-only day listing that never carries the expected code.
 */
module DataLoader {
  import opened Wrappers

  /** One attendance session. `status` is whatever string the dataset gives. */
  datatype Entry = Entry(sessionId: string, courseCode: string, slotLabel: string,
                         timeLabel: string, status: string, code: string)

  datatype Day = Day(anchor: string, dayLabel: string, entries: seq<Entry>)

  datatype Model = Model(days: seq<Day>)

  const Pending: string := "pending"

  // ---------------------------------------------------------------------------
  // The parsed dataset and its conversion into a Model
  // ---------------------------------------------------------------------------

  /** A parsed entry object: its keys and their string values. */
  type RawEntry = map<string, string>

  /** A parsed day object: its string-valued keys and its optional "entries" list. */
  datatype RawDay = RawDay(fields: map<string, string>, entries: Option<seq<RawEntry>>)

  /** The parsed top-level object: its optional "days" list. */
  datatype Payload = Payload(days: Option<seq<RawDay>>)

  /** The `KeyError` a missing required key raises, carrying that key. */
  datatype LoadError = MissingKey(key: string)

  /** `dict.get(key, default)`. */
  function GetOr(m: map<string, string>, key: string, default: string): string {
    if key in m then m[key] else default
  }

  function RawDays(p: Payload): seq<RawDay> {
    if p.days.Some? then p.days.value else []
  }

  function RawEntries(d: RawDay): seq<RawEntry> {
    if d.entries.Some? then d.entries.value else []
  }

  /**
   * Applies a conversion to every element in order and stops at the first
   * failure, as a list comprehension whose element expression raises does.
   */
  function MapAll<A, B>(f: A -> Result<B, LoadError>, xs: seq<A>): (r: Result<seq<B>, LoadError>)
    ensures r.Ok? <==> forall k :: 0 <= k < |xs| ==> f(xs[k]).Ok?
    ensures r.Ok? ==> |r.value| == |xs| && forall k :: 0 <= k < |xs| ==> f(xs[k]) == Ok(r.value[k])
  {
    if |xs| == 0 then Ok([])
    else match f(xs[0])
      case Err(e) => Err(e)
      case Ok(y) =>
        match MapAll(f, xs[1..])
        case Err(e) => Err(e)
        case Ok(ys) => Ok([y] + ys)
  }

  /** The error `MapAll` reports is that of the first element that fails. */
  lemma {:induction false} MapAllFirstError<A, B>(f: A -> Result<B, LoadError>, xs: seq<A>, i: nat)
    requires i < |xs| && f(xs[i]).Err?
    requires forall k :: 0 <= k < i ==> f(xs[k]).Ok?
    ensures MapAll(f, xs) == Err(f(xs[i]).error)
  {
    if i > 0 {
      assert f(xs[0]).Ok?;
      assert forall k :: 0 <= k < i - 1 ==> f(xs[1..][k]).Ok? by {
        forall k | 0 <= k < i - 1 ensures f(xs[1..][k]).Ok? {
          assert xs[1..][k] == xs[k + 1];
        }
      }
      assert xs[1..][i - 1] == xs[i];
      MapAllFirstError(f, xs[1..], i - 1);
    }
  }

  /** One entry: the four required keys in source order, then the two defaults. */
  function LoadEntry(raw: RawEntry): Result<Entry, LoadError> {
    if "session_id" !in raw then Err(MissingKey("session_id"))
    else if "course_code" !in raw then Err(MissingKey("course_code"))
    else if "slot_label" !in raw then Err(MissingKey("slot_label"))
    else if "time_label" !in raw then Err(MissingKey("time_label"))
    else Ok(Entry(raw["session_id"], raw["course_code"], raw["slot_label"], raw["time_label"],
                  GetOr(raw, "status", Pending), GetOr(raw, "code", "")))
  }

  /** One day: its entries are converted first, then "anchor" and "label" are read. */
  function LoadDay(raw: RawDay): Result<Day, LoadError> {
    match MapAll(LoadEntry, RawEntries(raw))
    case Err(e) => Err(e)
    case Ok(entries) =>
      if "anchor" !in raw.fields then Err(MissingKey("anchor"))
      else if "label" !in raw.fields then Err(MissingKey("label"))
      else Ok(Day(raw.fields["anchor"], raw.fields["label"], entries))
  }

  /** The model a payload loads to, or the `KeyError` that aborts the load. */
  function Load(p: Payload): Result<Model, LoadError> {
    match MapAll(LoadDay, RawDays(p))
    case Err(e) => Err(e)
    case Ok(days) => Ok(Model(days))
  }

  /** The conversion loop of `load_model`, after the file read and JSON parse. */
  method LoadModel(p: Payload) returns (r: Result<Model, LoadError>)
    ensures r == Load(p)
  {
    var raw := RawDays(p);
    var days: seq<Day> := [];
    var i := 0;
    while i < |raw|
      invariant 0 <= i <= |raw|
      invariant |days| == i
      invariant forall k :: 0 <= k < i ==> LoadDay(raw[k]) == Ok(days[k])
    {
      var day := LoadDay(raw[i]);
      if day.Err? {
        MapAllFirstError(LoadDay, raw, i);
        return Err(day.error);
      }
      days := days + [day.value];
      i := i + 1;
    }
    assert MapAll(LoadDay, raw).Ok?;
    assert MapAll(LoadDay, raw).value == days;
    return Ok(Model(days));
  }

  // ---------------------------------------------------------------------------
  // Properties of the conversion
  // ---------------------------------------------------------------------------

  predicate HasEntryKeys(raw: RawEntry) {
    "session_id" in raw && "course_code" in raw && "slot_label" in raw && "time_label" in raw
  }

  /** Every day has "anchor" and "label", and every entry has the four required keys. */
  predicate WellFormed(p: Payload) {
    forall d :: 0 <= d < |RawDays(p)| ==>
      "anchor" in RawDays(p)[d].fields && "label" in RawDays(p)[d].fields &&
      forall j :: 0 <= j < |RawEntries(RawDays(p)[d])| ==> HasEntryKeys(RawEntries(RawDays(p)[d])[j])
  }

  /** A load succeeds exactly when no required key is missing anywhere. */
  lemma LoadSucceedsIffWellFormed(p: Payload)
    ensures Load(p).Ok? <==> WellFormed(p)
  {
    var raw := RawDays(p);
    forall d | 0 <= d < |raw|
      ensures LoadDay(raw[d]).Ok? <==>
        ("anchor" in raw[d].fields && "label" in raw[d].fields &&
         forall j :: 0 <= j < |RawEntries(raw[d])| ==> HasEntryKeys(RawEntries(raw[d])[j]))
    {
      var es := RawEntries(raw[d]);
      assert MapAll(LoadEntry, es).Ok? <==> forall j :: 0 <= j < |es| ==> HasEntryKeys(es[j]) by {
        forall j | 0 <= j < |es| ensures LoadEntry(es[j]).Ok? <==> HasEntryKeys(es[j]) { }
      }
    }
  }

  /** A missing required entry key anywhere makes the whole load fail. */
  lemma MissingEntryKeyFails(p: Payload, d: nat, j: nat, key: string)
    requires d < |RawDays(p)| && j < |RawEntries(RawDays(p)[d])|
    requires key in ["session_id", "course_code", "slot_label", "time_label"]
    requires key !in RawEntries(RawDays(p)[d])[j]
    ensures Load(p).Err?
  {
    LoadSucceedsIffWellFormed(p);
  }

  /** A day without "anchor" or "label" makes the whole load fail. */
  lemma MissingDayKeyFails(p: Payload, d: nat, key: string)
    requires d < |RawDays(p)|
    requires key in ["anchor", "label"]
    requires key !in RawDays(p)[d].fields
    ensures Load(p).Err?
  {
    LoadSucceedsIffWellFormed(p);
  }

  /** No "days" key gives an empty model; no "entries" key gives a day without entries. */
  lemma MissingListsAreEmpty(p: Payload, d: nat)
    ensures p.days.None? ==> Load(p) == Ok(Model([]))
    ensures d < |RawDays(p)| && RawDays(p)[d].entries.None? && Load(p).Ok? ==>
              Load(p).value.days[d].entries == []
  {
  }

  /**
   * A successful load keeps the order and number of days and of entries, copies
   * anchor, label and the four required entry fields verbatim, and gives
   * `status` the default "pending" and `code` the default "".
   */
  lemma LoadedShape(p: Payload, m: Model)
    requires Load(p) == Ok(m)
    ensures |m.days| == |RawDays(p)|
    ensures forall d :: 0 <= d < |m.days| ==>
      var raw := RawDays(p)[d];
      m.days[d].anchor == raw.fields["anchor"] && m.days[d].dayLabel == raw.fields["label"] &&
      |m.days[d].entries| == |RawEntries(raw)| &&
      forall j :: 0 <= j < |RawEntries(raw)| ==>
        var e, re := m.days[d].entries[j], RawEntries(raw)[j];
        e.sessionId == re["session_id"] && e.courseCode == re["course_code"] &&
        e.slotLabel == re["slot_label"] && e.timeLabel == re["time_label"] &&
        e.status == (if "status" in re then re["status"] else Pending) &&
        e.code == (if "code" in re then re["code"] else "")
  {
    var raw := RawDays(p);
    forall d | 0 <= d < |m.days|
      ensures
        m.days[d].anchor == raw[d].fields["anchor"] && m.days[d].dayLabel == raw[d].fields["label"] &&
        |m.days[d].entries| == |RawEntries(raw[d])| &&
        forall j :: 0 <= j < |RawEntries(raw[d])| ==>
          var e, re := m.days[d].entries[j], RawEntries(raw[d])[j];
          e.sessionId == re["session_id"] && e.courseCode == re["course_code"] &&
          e.slotLabel == re["slot_label"] && e.timeLabel == re["time_label"] &&
          e.status == (if "status" in re then re["status"] else Pending) &&
          e.code == (if "code" in re then re["code"] else "")
    {
      assert LoadDay(raw[d]) == Ok(m.days[d]);
      var es := RawEntries(raw[d]);
      var loaded := MapAll(LoadEntry, es);
      assert loaded.Ok? && loaded.value == m.days[d].entries;
      forall j | 0 <= j < |es| ensures LoadEntry(es[j]) == Ok(m.days[d].entries[j]) { }
    }
  }

  // ---------------------------------------------------------------------------
  // Lookup by session id
  // ---------------------------------------------------------------------------

  /** A place in the model: a day index and an entry index within that day. */
  datatype Pos = Pos(day: nat, entry: nat)

  predicate ValidPos(days: seq<Day>, p: Pos) {
    p.day < |days| && p.entry < |days[p.day].entries|
  }

  function At(days: seq<Day>, p: Pos): Entry
    requires ValidPos(days, p)
  {
    days[p.day].entries[p.entry]
  }

  predicate NoneIn(entries: seq<Entry>, sid: string) {
    forall j :: 0 <= j < |entries| ==> entries[j].sessionId != sid
  }

  /** No entry of the first `n` days has session id `sid`. */
  predicate NoneBefore(days: seq<Day>, sid: string, n: nat)
    requires n <= |days|
  {
    forall d :: 0 <= d < n ==> NoneIn(days[d].entries, sid)
  }

  /** `p` holds `sid`, and no earlier place (in day order, then entry order) does. */
  predicate IsFirstMatch(days: seq<Day>, sid: string, p: Pos) {
    ValidPos(days, p) && At(days, p).sessionId == sid &&
    NoneBefore(days, sid, p.day) && NoneIn(days[p.day].entries[..p.entry], sid)
  }

  lemma FirstMatchUnique(days: seq<Day>, sid: string, p: Pos, q: Pos)
    requires IsFirstMatch(days, sid, p) && IsFirstMatch(days, sid, q)
    ensures p == q
  {
  }

  function FindIn(entries: seq<Entry>, sid: string): (r: Option<nat>)
    ensures r.None? <==> NoneIn(entries, sid)
    ensures r.Some? ==> r.value < |entries| && entries[r.value].sessionId == sid &&
                        NoneIn(entries[..r.value], sid)
  {
    if |entries| == 0 then None
    else if entries[0].sessionId == sid then Some(0)
    else match FindIn(entries[1..], sid)
      case None => None
      case Some(j) =>
        assert entries[..j + 1] == [entries[0]] + entries[1..][..j];
        Some(j + 1)
  }

  /** The first place holding `sid`, in day order and then entry order. */
  function Find(days: seq<Day>, sid: string): (r: Option<Pos>)
    ensures r.None? <==> NoneBefore(days, sid, |days|)
    ensures r.Some? ==> IsFirstMatch(days, sid, r.value)
  {
    if |days| == 0 then None
    else match FindIn(days[0].entries, sid)
      case Some(j) => Some(Pos(0, j))
      case None =>
        match Find(days[1..], sid)
        case None => None
        case Some(q) =>
          assert days[1..][q.day] == days[q.day + 1];
          Some(Pos(q.day + 1, q.entry))
  }

  /** `find_entry`: a nested scan that returns at the first entry with this session id. */
  method FindEntry(m: Model, sid: string) returns (r: Option<Pos>)
    ensures r == Find(m.days, sid)
  {
    var d := 0;
    while d < |m.days|
      invariant 0 <= d <= |m.days|
      invariant NoneBefore(m.days, sid, d)
    {
      var entries := m.days[d].entries;
      var j := 0;
      while j < |entries|
        invariant 0 <= j <= |entries|
        invariant NoneIn(entries[..j], sid)
      {
        if entries[j].sessionId == sid {
          FirstMatchUnique(m.days, sid, Pos(d, j), Find(m.days, sid).value);
          return Some(Pos(d, j));
        }
        assert entries[..j + 1] == entries[..j] + [entries[j]];
        j := j + 1;
      }
      assert entries[..j] == entries;
      d := d + 1;
    }
    return None;
  }

  /** Two models whose days hold the same session ids in the same places. */
  predicate SameIds(a: seq<Day>, b: seq<Day>) {
    |a| == |b| &&
    forall d :: 0 <= d < |a| ==>
      |a[d].entries| == |b[d].entries| &&
      forall j :: 0 <= j < |a[d].entries| ==> a[d].entries[j].sessionId == b[d].entries[j].sessionId
  }

  /** Lookup depends on nothing but where the session ids are. */
  lemma FindDependsOnlyOnIds(a: seq<Day>, b: seq<Day>, sid: string)
    requires SameIds(a, b)
    ensures Find(a, sid) == Find(b, sid)
  {
    assert forall d :: 0 <= d < |a| ==> (NoneIn(a[d].entries, sid) <==> NoneIn(b[d].entries, sid));
    match Find(a, sid)
    case None =>
    case Some(p) =>
      assert NoneIn(b[p.day].entries[..p.entry], sid) by {
        forall j | 0 <= j < p.entry
          ensures b[p.day].entries[..p.entry][j].sessionId != sid
        {
          assert a[p.day].entries[..p.entry][j] == a[p.day].entries[j];
        }
      }
      assert IsFirstMatch(b, sid, p);
      FirstMatchUnique(b, sid, p, Find(b, sid).value);
  }

  // ---------------------------------------------------------------------------
  // The day listing
  // ---------------------------------------------------------------------------

  /** What the listing shows of one entry: every field except `code`. */
  datatype EntryView = EntryView(sessionId: string, courseCode: string, slotLabel: string,
                                 timeLabel: string, status: string)

  datatype DayGroup = DayGroup(anchor: string, dayLabel: string, entries: seq<EntryView>)

  function View(e: Entry): EntryView {
    EntryView(e.sessionId, e.courseCode, e.slotLabel, e.timeLabel, e.status)
  }

  function Group(d: Day): DayGroup {
    DayGroup(d.anchor, d.dayLabel, seq(|d.entries|, j requires 0 <= j < |d.entries| => View(d.entries[j])))
  }

  /** One group per day, in day order. */
  function Groups(days: seq<Day>): seq<DayGroup> {
    seq(|days|, i requires 0 <= i < |days| => Group(days[i]))
  }

  /** `day_groups`: one appended group per day. */
  method DayGroups(m: Model) returns (groups: seq<DayGroup>)
    ensures groups == Groups(m.days)
  {
    groups := [];
    var i := 0;
    while i < |m.days|
      invariant 0 <= i <= |m.days|
      invariant groups == Groups(m.days[..i])
    {
      assert m.days[..i + 1] == m.days[..i] + [m.days[i]];
      groups := groups + [Group(m.days[i])];
      i := i + 1;
    }
    assert m.days[..i] == m.days;
  }

  /**
   * The listing has one group per day in the same order, copies anchor and
   * label, and shows each entry's id, course, slot, time and current status,
   * in the same order.
   */
  lemma GroupsShape(days: seq<Day>)
    ensures |Groups(days)| == |days|
    ensures forall i :: 0 <= i < |days| ==>
      Groups(days)[i].anchor == days[i].anchor && Groups(days)[i].dayLabel == days[i].dayLabel &&
      |Groups(days)[i].entries| == |days[i].entries| &&
      forall j :: 0 <= j < |days[i].entries| ==>
        var v, e := Groups(days)[i].entries[j], days[i].entries[j];
        v.sessionId == e.sessionId && v.courseCode == e.courseCode && v.slotLabel == e.slotLabel &&
        v.timeLabel == e.timeLabel && v.status == e.status
  {
  }

  /** Two models that agree on everything except the expected codes. */
  predicate SameExceptCodes(a: seq<Day>, b: seq<Day>) {
    |a| == |b| &&
    forall d :: 0 <= d < |a| ==>
      a[d].anchor == b[d].anchor && a[d].dayLabel == b[d].dayLabel &&
      |a[d].entries| == |b[d].entries| &&
      forall j :: 0 <= j < |a[d].entries| ==>
        a[d].entries[j].(code := "") == b[d].entries[j].(code := "")
  }

  /** The listing cannot reveal the expected codes: changing them changes nothing in it. */
  lemma GroupsIgnoreCodes(a: seq<Day>, b: seq<Day>)
    requires SameExceptCodes(a, b)
    ensures Groups(a) == Groups(b)
  {
    forall d | 0 <= d < |a| ensures Group(a[d]) == Group(b[d]) {
      forall j | 0 <= j < |a[d].entries| ensures View(a[d].entries[j]) == View(b[d].entries[j]) {
        var x, y := a[d].entries[j], b[d].entries[j];
        assert x.(code := "") == y.(code := "");
        assert x.(code := "").sessionId == x.sessionId && x.(code := "").status == x.status;
      }
      assert Group(a[d]).entries == Group(b[d]).entries;
    }
  }
}
