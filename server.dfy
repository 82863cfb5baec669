/**
 * The entry page handler: locating the requested session, the one-edge status
 * machine that a code submission drives, the detail shown afterwards, and the
 * reset that reloads the dataset. The shared model is held by a `Portal`.
 */
module Server {
  import opened Wrappers
  import opened Text
  import opened DataLoader

  const Submitted: string := "submitted"
  const Locked: string := "locked"
  const SuccessMessage: string := "Code submitted successfully."
  const FailureMessage: string := "Invalid code. Please try again."

  /** A GET, or a POST carrying the attendance-code form field when it is present. */
  datatype Verb = Get | Post(codeField: Option<string>)

  datatype Request = Request(query: map<string, string>, verb: Verb)

  /** What the entry page shows of a session: neither its id nor its code. */
  datatype Detail = Detail(courseCode: string, slotLabel: string, timeLabel: string, status: string)

  datatype Response =
    | BadRequest
    | NotFound
    | EntryPage(detail: Detail, message: Option<string>, error: bool)

  /** `query.get("s") or query.get("session")`, with an empty or absent id as None. */
  function SessionParam(query: map<string, string>): Option<string> {
    var s := if "s" in query && query["s"] != "" then query["s"]
             else if "session" in query then query["session"] else "";
    if s == "" then None else Some(s)
  }

  /** `form.get(field, "")`, then `code or ""`: an absent field is the empty candidate. */
  function Candidate(field: Option<string>): string {
    if field.Some? then field.value else ""
  }

  /** The code check: both sides stripped and upper-cased, then compared. */
  predicate Matches(code: string, candidate: string) {
    Normalize(code) == Normalize(candidate)
  }

  /** Whether a submission is accepted, from the entry's status and code. */
  predicate Accepts(e: Entry, candidate: string) {
    if e.status == Submitted then true
    else if e.status == Locked then false
    else Matches(e.code, candidate)
  }

  /** The entry after a submission: only a matching code on an open entry changes it. */
  function AfterSubmit(e: Entry, candidate: string): Entry {
    if e.status != Submitted && e.status != Locked && Matches(e.code, candidate)
    then e.(status := Submitted) else e
  }

  function DetailOf(e: Entry): Detail {
    Detail(e.courseCode, e.slotLabel, e.timeLabel, e.status)
  }

  /** The days with the status of the entry at `p` replaced, and nothing else. */
  function SetStatus(days: seq<Day>, p: Pos, status: string): (r: seq<Day>)
    requires ValidPos(days, p)
    ensures |r| == |days|
    ensures forall d :: 0 <= d < |days| ==>
      r[d].anchor == days[d].anchor && r[d].dayLabel == days[d].dayLabel &&
      |r[d].entries| == |days[d].entries|
    ensures forall q :: ValidPos(days, q) && q != p ==> At(r, q) == At(days, q)
    ensures At(r, p) == At(days, p).(status := status)
  {
    var day := days[p.day];
    days[p.day := day.(entries := day.entries[p.entry := day.entries[p.entry].(status := status)])]
  }

  /** The page shown for `sid` after the optional submission. */
  function Page(days: seq<Day>, sid: string, message: Option<string>, error: bool): Response {
    match Find(days, sid)
    case None => NotFound
    case Some(p) => EntryPage(DetailOf(At(days, p)), message, error)
  }

  /** The model after a submission to the entry at `p`: that entry's transition, written back. */
  function Submit(m: Model, p: Pos, candidate: string): Model
    requires ValidPos(m.days, p)
  {
    var e := At(m.days, p);
    if AfterSubmit(e, candidate) == e then m else Model(SetStatus(m.days, p, Submitted))
  }

  /**
   * The whole entry handler as a function of the model and the request: the new
   * model and the response.
   */
  function HandleEntrySpec(m: Model, req: Request): (Model, Response) {
    match SessionParam(req.query)
    case None => (m, BadRequest)
    case Some(sid) => HandleSession(m, sid, req.verb)
  }

  /** The handler once the id `sid` has been read from the query. */
  function HandleSession(m: Model, sid: string, verb: Verb): (Model, Response) {
    match verb
    case Get => (m, Page(m.days, sid, None, false))
    case Post(field) =>
      match Find(m.days, sid)
      case None => (m, NotFound)
      case Some(p) =>
        var c := Candidate(field);
        var ok := Accepts(At(m.days, p), c);
        var m' := Submit(m, p, c);
        (m', Page(m'.days, sid, Some(if ok then SuccessMessage else FailureMessage), !ok))
  }

  // ---------------------------------------------------------------------------
  // The status machine
  // ---------------------------------------------------------------------------

  /** An already-submitted entry accepts every candidate, the empty one included, and stays so. */
  lemma SubmittedAcceptsAnything(e: Entry, candidate: string)
    requires e.status == Submitted
    ensures Accepts(e, candidate) && AfterSubmit(e, candidate) == e
  {
  }

  /** A locked entry refuses every candidate, its exact code included, and stays locked. */
  lemma LockedRefusesAnything(e: Entry, candidate: string)
    requires e.status == Locked
    ensures !Accepts(e, candidate) && AfterSubmit(e, candidate) == e
  {
  }

  /** Any other status: accepted exactly on a code match, which moves it to submitted. */
  lemma OpenEntryCompares(e: Entry, candidate: string)
    requires e.status != Submitted && e.status != Locked
    ensures Accepts(e, candidate) <==> Normalize(e.code) == Normalize(candidate)
    ensures AfterSubmit(e, candidate) == if Accepts(e, candidate) then e.(status := Submitted) else e
  {
  }

  /**
   * A submission is accepted exactly when the entry ends up submitted, and the
   * only change a submission makes is the one edge into "submitted".
   */
  lemma AcceptedIffSubmittedAfter(e: Entry, candidate: string)
    ensures Accepts(e, candidate) <==> AfterSubmit(e, candidate).status == Submitted
    ensures AfterSubmit(e, candidate) == e ||
            (e.status != Submitted && e.status != Locked &&
             AfterSubmit(e, candidate) == e.(status := Submitted))
  {
  }

  /** A blank string strips to nothing. */
  lemma BlankStripsToEmpty(a: string)
    requires AllSpace(a)
    ensures Strip(a) == []
  {
    assert a + [] + [] == a;
    StripIgnoresPadding(a, [], []);
  }

  /**
   * An open entry whose code is empty or whitespace only accepts every empty or
   * blank candidate, and then becomes submitted.
   */
  lemma BlankCodeAcceptsBlank(e: Entry, candidate: string)
    requires e.status != Submitted && e.status != Locked
    requires AllSpace(e.code) && AllSpace(candidate)
    ensures Accepts(e, candidate) && AfterSubmit(e, candidate).status == Submitted
  {
    BlankStripsToEmpty(e.code);
    BlankStripsToEmpty(candidate);
  }

  lemma UpperOfExampleCodes()
    ensures Upper("AB12") == "AB12"
  {
    forall k | 0 <= k < 4 ensures Upper("AB12")[k] == "AB12"[k] { }
  }

  lemma UpperOfLowerExample()
    ensures Upper("ab12") == "AB12"
  {
    assert Upper("ab12")[0] == 'A' && Upper("ab12")[1] == 'B';
    forall k | 0 <= k < 4 ensures Upper("ab12")[k] == "AB12"[k] { }
  }

  lemma UpperOfMixedExample()
    ensures Upper("Ab12") == "AB12"
  {
    assert Upper("Ab12")[1] == 'B';
    forall k | 0 <= k < 4 ensures Upper("Ab12")[k] == "AB12"[k] { }
  }

  lemma NormalizedExampleCode()
    ensures Normalize("AB12") == "AB12"
  {
    UnpaddedStrip("AB12");
    UpperOfExampleCodes();
  }

  lemma NormalizedLowerExample()
    ensures Normalize("ab12") == "AB12"
  {
    UnpaddedStrip("ab12");
    UpperOfLowerExample();
  }

  lemma StrippedPaddedExample()
    ensures Strip(" Ab12 ") == "Ab12"
  {
    assert " Ab12 "[1..] == "Ab12 ";
    assert TrimStart(" Ab12 ") == "Ab12 ";
    assert "Ab12 "[..4] == "Ab12";
    assert TrimEnd("Ab12 ") == TrimEnd("Ab12") == "Ab12";
  }

  lemma NormalizedPaddedExample()
    ensures Normalize(" Ab12 ") == "AB12"
  {
    StrippedPaddedExample();
    UpperOfMixedExample();
  }

  lemma NormalizedLength(s: string)
    requires s != [] && !IsSpace(s[0]) && !IsSpace(s[|s| - 1])
    ensures |Normalize(s)| == |s|
  {
    UnpaddedStrip(s);
  }

  /** The worked example for the code "AB12": case and surrounding whitespace do not matter. */
  lemma CodeExamplesAccepted()
    ensures Matches("AB12", "ab12") && Matches("AB12", " Ab12 ") && Matches("AB12", "AB12")
  {
    NormalizedExampleCode();
    NormalizedLowerExample();
    NormalizedPaddedExample();
  }

  /** For the code "AB12", a missing or extra character, or an empty candidate, is refused. */
  lemma CodeExamplesRejected()
    ensures !Matches("AB12", "AB1") && !Matches("AB12", "AB123") && !Matches("AB12", "")
  {
    assert !Matches("AB12", "AB1") by {
      NormalizedExampleCode();
      NormalizedLength("AB1");
    }
    assert !Matches("AB12", "AB123") by {
      NormalizedExampleCode();
      NormalizedLength("AB123");
    }
    assert !Matches("AB12", "") by {
      NormalizedExampleCode();
    }
  }

  // ---------------------------------------------------------------------------
  // The handler
  // ---------------------------------------------------------------------------

  /** A non-empty "s" wins; otherwise "session" is used; an empty id counts as none. */
  lemma SessionParamChoice(query: map<string, string>)
    ensures "s" in query && query["s"] != "" ==> SessionParam(query) == Some(query["s"])
    ensures ("s" !in query || query["s"] == "") && "session" in query && query["session"] != "" ==>
              SessionParam(query) == Some(query["session"])
    ensures SessionParam(query).None? <==>
              ("s" !in query || query["s"] == "") && ("session" !in query || query["session"] == "")
  {
  }

  /** A missing or empty id is a bad request, before the model is consulted. */
  lemma MissingIdIsBadRequest(m: Model, req: Request)
    requires ("s" !in req.query || req.query["s"] == "") &&
             ("session" !in req.query || req.query["session"] == "")
    ensures HandleEntrySpec(m, req) == (m, BadRequest)
  {
  }

  /** An unknown id is not found, for both verbs, and the model is untouched. */
  lemma UnknownIdIsNotFound(m: Model, req: Request, sid: string)
    requires SessionParam(req.query) == Some(sid)
    requires Find(m.days, sid).None?
    ensures HandleEntrySpec(m, req) == (m, NotFound)
  {
  }

  /** Changing only a status keeps every session where it was, so lookup is unaffected. */
  lemma FindIgnoresStatus(days: seq<Day>, p: Pos, status: string, sid: string)
    requires ValidPos(days, p)
    ensures Find(SetStatus(days, p, status), sid) == Find(days, sid)
  {
    var r := SetStatus(days, p, status);
    forall d, j | 0 <= d < |days| && 0 <= j < |days[d].entries|
      ensures days[d].entries[j].sessionId == r[d].entries[j].sessionId
    {
      assert ValidPos(days, Pos(d, j));
      assert At(days, Pos(d, j)) == days[d].entries[j];
    }
    FindDependsOnlyOnIds(days, r, sid);
  }

  /** A POST whose id is found runs the submission, then shows the page for the new model. */
  lemma PostFound(m: Model, req: Request, sid: string, p: Pos)
    requires SessionParam(req.query) == Some(sid) && req.verb.Post?
    requires Find(m.days, sid) == Some(p)
    ensures var c := Candidate(req.verb.codeField);
      var ok := Accepts(At(m.days, p), c);
      var m' := Submit(m, p, c);
      HandleEntrySpec(m, req) == (m', Page(m'.days, sid, Some(if ok then SuccessMessage else FailureMessage), !ok))
  {
    assert HandleEntrySpec(m, req) == HandleSession(m, sid, req.verb);
    PostFoundSession(m, sid, req.verb.codeField, p);
  }

  lemma PostFoundSession(m: Model, sid: string, field: Option<string>, p: Pos)
    requires Find(m.days, sid) == Some(p)
    ensures var c := Candidate(field);
      var ok := Accepts(At(m.days, p), c);
      var m' := Submit(m, p, c);
      HandleSession(m, sid, Post(field)) == (m', Page(m'.days, sid, Some(if ok then SuccessMessage else FailureMessage), !ok))
  {
  }

  /** After a submission the second lookup finds the same entry, now in its new state. */
  lemma SubmitPage(m: Model, sid: string, p: Pos, c: string, message: Option<string>, error: bool)
    requires Find(m.days, sid) == Some(p)
    ensures var m' := Submit(m, p, c);
      m'.days == m.days || m'.days == SetStatus(m.days, p, Submitted)
    ensures Page(Submit(m, p, c).days, sid, message, error) ==
      EntryPage(DetailOf(AfterSubmit(At(m.days, p), c)), message, error)
  {
    var m' := Submit(m, p, c);
    if m' != m {
      FindIgnoresStatus(m.days, p, Submitted, sid);
    }
  }

  /**
   * A POST for a session that is found: the outcome follows the status machine,
   * the message is the success text exactly when it was accepted, `error` is set
   * exactly when it was refused, the model changes only by that entry's
   * transition, and the page shows the status after the submission.
   */
  lemma SubmissionOutcome(m: Model, req: Request, sid: string, p: Pos)
    requires SessionParam(req.query) == Some(sid) && req.verb.Post?
    requires Find(m.days, sid) == Some(p)
    ensures var e, c := At(m.days, p), Candidate(req.verb.codeField);
      var ok := Accepts(e, c);
      var m' := if AfterSubmit(e, c) == e then m else Model(SetStatus(m.days, p, Submitted));
      HandleEntrySpec(m, req) ==
        (m', EntryPage(DetailOf(AfterSubmit(e, c)), Some(if ok then SuccessMessage else FailureMessage), !ok))
  {
    var c := Candidate(req.verb.codeField);
    var ok := Accepts(At(m.days, p), c);
    var msg := Some(if ok then SuccessMessage else FailureMessage);
    PostFound(m, req, sid, p);
    SubmitPage(m, sid, p, c, msg, !ok);
  }

  /** The predicate a first submission leaves behind: the second one meets `submitted`. */
  lemma ResubmitAfterSuccess(m: Model, first: Request, second: Request, sid: string, p: Pos)
    requires SessionParam(first.query) == Some(sid) && first.verb.Post?
    requires SessionParam(second.query) == Some(sid) && second.verb.Post?
    requires Find(m.days, sid) == Some(p)
    requires Accepts(At(m.days, p), Candidate(first.verb.codeField))
    ensures var m1 := HandleEntrySpec(m, first).0;
      Find(m1.days, sid) == Some(p) && At(m1.days, p).status == Submitted &&
      HandleEntrySpec(m1, second) ==
        (m1, EntryPage(DetailOf(At(m1.days, p)), Some(SuccessMessage), false))
  {
    SubmissionOutcome(m, first, sid, p);
    var m1 := HandleEntrySpec(m, first).0;
    if m1 != m {
      FindIgnoresStatus(m.days, p, Submitted, sid);
    }
    SubmissionOutcome(m1, second, sid, p);
  }

  /**
   * Whatever the request, the model keeps its days, their order and their
   * entries; every field but `status` is unchanged everywhere; and the only
   * entry whose status may change is the first match for the requested id,
   * which can only become "submitted".
   */
  lemma OnlyMatchedStatusChanges(m: Model, req: Request)
    ensures var m' := HandleEntrySpec(m, req).0;
      |m'.days| == |m.days| &&
      (forall d :: 0 <= d < |m.days| ==>
        m'.days[d].anchor == m.days[d].anchor && m'.days[d].dayLabel == m.days[d].dayLabel &&
        |m'.days[d].entries| == |m.days[d].entries|) &&
      forall q :: ValidPos(m.days, q) ==>
        ValidPos(m'.days, q) &&
        (At(m'.days, q) == At(m.days, q) ||
         (req.verb.Post? && SessionParam(req.query).Some? &&
          Find(m.days, SessionParam(req.query).value) == Some(q) &&
          At(m'.days, q) == At(m.days, q).(status := Submitted)))
  {
  }

  /** A GET never changes the model and shows no message. */
  lemma GetChangesNothing(m: Model, req: Request)
    requires req.verb.Get?
    ensures HandleEntrySpec(m, req).0 == m
    ensures HandleEntrySpec(m, req).1.EntryPage? ==>
      HandleEntrySpec(m, req).1.message.None? && !HandleEntrySpec(m, req).1.error
  {
  }

  /** The detail page cannot reveal the expected code. */
  lemma DetailIgnoresCode(e: Entry, code: string)
    ensures DetailOf(e.(code := code)) == DetailOf(e)
  {
  }

  // ---------------------------------------------------------------------------
  // The store
  // ---------------------------------------------------------------------------

  /** The application's shared model, replaced wholesale by a reset. */
  class Portal {
    var model: Model

    /** The model loaded at start-up; start-up aborts when the dataset does not load. */
    constructor (source: Payload)
      requires Load(source).Ok?
      ensures model == Load(source).value
    {
      var loaded := LoadModel(source);
      model := loaded.value;
    }

    /** The units page's data: the day listing of the current model. */
    method Units() returns (groups: seq<DayGroup>)
      ensures groups == Groups(model.days)
    {
      groups := DayGroups(model);
    }

    /** `entry_handler`: the id check, the optional submission, then the detail. */
    method HandleEntry(req: Request) returns (resp: Response)
      modifies this
      ensures (model, resp) == HandleEntrySpec(old(model), req)
    {
      var sessionId := SessionParam(req.query);
      if sessionId.None? {
        return BadRequest;
      }
      var sid := sessionId.value;
      assert HandleEntrySpec(model, req) == HandleSession(model, sid, req.verb);
      var message: Option<string> := None;
      var error := false;
      if req.verb.Post? {
        var code := Candidate(req.verb.codeField);
        var found := FindEntry(model, sid);
        if found.None? {
          return NotFound;
        }
        var p := found.value;
        PostFoundSession(model, sid, req.verb.codeField, p);
        ghost var before := model;
        var entry := model.days[p.day].entries[p.entry];
        var ok := false;
        if entry.status == Submitted {
          ok := true;
        } else if entry.status == Locked {
          ok := false;
        } else {
          ok := Normalize(entry.code) == Normalize(code);
          if ok {
            model := Model(SetStatus(model.days, p, Submitted));
          }
        }
        assert ok == Accepts(entry, code) && model == Submit(before, p, code);
        if ok {
          message := Some(SuccessMessage);
        } else {
          message := Some(FailureMessage);
          error := true;
        }
      }
      var found := FindEntry(model, sid);
      if found.None? {
        return NotFound;
      }
      var entry := model.days[found.value.day].entries[found.value.entry];
      resp := EntryPage(DetailOf(entry), message, error);
    }

    /**
     * `reset_handler`: reload the dataset (given here already parsed) and swap it
     * in. When the reload fails, the current model stays installed.
     */
    method Reset(contents: Payload) returns (r: Result<(), LoadError>)
      modifies this
      ensures Load(contents).Ok? ==> r == Ok(()) && model == Load(contents).value
      ensures Load(contents).Err? ==> r == Err(Load(contents).error) && model == old(model)
    {
      var loaded := LoadModel(contents);
      if loaded.Err? {
        return Err(loaded.error);
      }
      model := loaded.value;
      return Ok(());
    }
  }
}
