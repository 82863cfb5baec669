/** An end-to-end walk through one session, as a client of `Portal`. */
module Scenario {
  import opened Wrappers
  import opened Text
  import opened DataLoader
  import opened Server

  lemma UpperOfScenarioCandidate()
    ensures Upper("xy9") == "XY9"
  {
    assert Upper("xy9")[0] == 'X' && Upper("xy9")[1] == 'Y';
    forall k | 0 <= k < 3 ensures Upper("xy9")[k] == "XY9"[k] { }
  }

  lemma UpperOfScenarioCode()
    ensures Upper("XY9") == "XY9"
  {
    forall k | 0 <= k < 3 ensures Upper("XY9")[k] == "XY9"[k] { }
  }

  lemma NormalizedScenarioCode()
    ensures Normalize("XY9") == "XY9"
  {
    UnpaddedStrip("XY9");
    UpperOfScenarioCode();
  }

  lemma NormalizedScenarioCandidate()
    ensures Normalize("xy9") == "XY9"
  {
    UnpaddedStrip("xy9");
    UpperOfScenarioCandidate();
  }

  /** "xy9" is accepted for the code "XY9". */
  lemma ScenarioCodeMatches()
    ensures Matches("XY9", "xy9")
  {
    NormalizedScenarioCode();
    NormalizedScenarioCandidate();
  }

  /** The one session of the scenario, as the dataset gives it: no status, code "XY9". */
  function ScenarioEntry(): RawEntry {
    map["session_id" := "s1", "course_code" := "CS101", "slot_label" := "Lab 1",
        "time_label" := "10am", "code" := "XY9"]
  }

  /** The dataset: one day "mon" holding that session. */
  function ScenarioSource(): Payload {
    Payload(Some([RawDay(map["anchor" := "mon", "label" := "Monday"], Some([ScenarioEntry()]))]))
  }

  /** The session as loaded: its status defaults to "pending". */
  function ScenarioSession(): Entry {
    Entry("s1", "CS101", "Lab 1", "10am", Pending, "XY9")
  }

  lemma MapAllSingle<A, B>(f: A -> Result<B, LoadError>, x: A, y: B)
    requires f(x) == Ok(y)
    ensures MapAll(f, [x]) == Ok([y])
  {
    var r := MapAll(f, [x]);
    assert [x][0] == x;
    assert r.Ok? && |r.value| == 1 && r.value[0] == y;
    assert r.value == [y];
  }

  lemma ScenarioEntryLoads()
    ensures LoadEntry(ScenarioEntry()) == Ok(ScenarioSession())
  {
    var raw := ScenarioEntry();
    assert "session_id" in raw && "course_code" in raw && "slot_label" in raw && "time_label" in raw;
    assert "status" !in raw && "code" in raw;
    assert raw["session_id"] == "s1" && raw["course_code"] == "CS101";
    assert raw["slot_label"] == "Lab 1" && raw["time_label"] == "10am" && raw["code"] == "XY9";
  }

  /** The dataset loads to one day holding the pending session. */
  lemma ScenarioLoads()
    ensures Load(ScenarioSource()) == Ok(Model([Day("mon", "Monday", [ScenarioSession()])]))
  {
    var day := RawDay(map["anchor" := "mon", "label" := "Monday"], Some([ScenarioEntry()]));
    ScenarioEntryLoads();
    MapAllSingle(LoadEntry, ScenarioEntry(), ScenarioSession());
    assert "anchor" in day.fields && "label" in day.fields;
    assert LoadDay(day) == Ok(Day("mon", "Monday", [ScenarioSession()]));
    assert RawDays(ScenarioSource()) == [day];
    MapAllSingle(LoadDay, day, Day("mon", "Monday", [ScenarioSession()]));
  }

  /**
   * One pending session "s1" with code "XY9": "xy9" is accepted and the session
   * becomes submitted; the same submission again is accepted and changes
   * nothing.
   */
  method EndToEnd() {
    ScenarioLoads();
    var session := ScenarioSession();
    var model := Model([Day("mon", "Monday", [session])]);
    var portal := new Portal(ScenarioSource());

    var post := Request(map["s" := "s1"], Post(Some("xy9")));
    assert SessionParam(post.query) == Some("s1");
    assert Find(model.days, "s1") == Some(Pos(0, 0));
    assert Accepts(session, "xy9") by {
      ScenarioCodeMatches();
    }
    assert AfterSubmit(session, "xy9") == session.(status := Submitted);
    SubmissionOutcome(model, post, "s1", Pos(0, 0));
    ResubmitAfterSuccess(model, post, post, "s1", Pos(0, 0));
    var submitted := Detail("CS101", "Lab 1", "10am", Submitted);

    var first := portal.HandleEntry(post);
    assert first == EntryPage(submitted, Some(SuccessMessage), false);
    var second := portal.HandleEntry(post);
    assert second == EntryPage(submitted, Some(SuccessMessage), false);
    assert portal.model.days[0].entries[0].status == Submitted;
  }

  /** An id that no session carries is not found. */
  method UnknownSession() {
    ScenarioLoads();
    var portal := new Portal(ScenarioSource());
    var missing := Request(map["s" := "missing"], Get);
    assert SessionParam(missing.query) == Some("missing");
    assert Find(portal.model.days, "missing") == None;
    var response := portal.HandleEntry(missing);
    assert response == NotFound;
  }

  /** Whatever was submitted, a reset from the start-up dataset brings back its model. */
  method ResetRevertsSubmissions(source: Payload, req: Request)
    requires Load(source).Ok?
  {
    var portal := new Portal(source);
    var initial := portal.model;
    var _ := portal.HandleEntry(req);
    var outcome := portal.Reset(source);
    assert outcome == Ok(()) && portal.model == initial;
  }
}
