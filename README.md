# Attendance mock portal: session store and code submission

This project models the core of a mock attendance portal:

- the dataset of days and their sessions;
- how a parsed dataset becomes that in-memory model;
- the first-match lookup of a session by id;
- the day listing, which never carries a session's expected code;
- the entry-page handler, which looks up the requested session, runs a code
  submission through the session's status machine, and shows the session's detail;
- the reset, which swaps in a freshly loaded model.

A session's status machine has one edge. A `submitted` session accepts every
candidate and stays submitted. A `locked` session refuses every candidate and
stays locked. A session with any other status compares its `code` with the
candidate, both stripped and upper-cased, and becomes `submitted` on a match.

Files:

- `wrappers.dfy`: `Option` and `Result`.
- `text.dfy`: module `Text`. It holds Python's `str.strip()` and `str.upper()`
  on ASCII, and the normalization codes are compared in.
- `data_loader.dfy`: module `DataLoader`, for `src/data_loader.py`.
  - `Entry`, `Day` and `Model`.
  - `Load` is the pure definition of a load, and `LoadModel` is the loop that
    implements it.
  - `Find` is the pure definition of the lookup, and `FindEntry` is the nested
    loop that implements it.
  - `Groups` is the pure definition of the listing, and `DayGroups` is the loop
    that implements it.
- `server.dfy`: module `Server`, for `src/server.py`.
  - The status machine: `Accepts` and `AfterSubmit`.
  - `HandleEntrySpec`, the whole entry handler as a function from the model and
    the request to the new model and the response.
  - `PostFound` and `PostFoundSession` only unfold the handler for a POST whose
    id is found. They are proof steps of `SubmissionOutcome` and of
    `Portal.HandleEntry`, and they say nothing beyond the definition.
  - The class `Portal`, which holds the shared model. Its methods `HandleEntry`
    and `Reset` change that model in place, and `Units` reads it.
- `scenario.dfy`: client methods of `Portal`.
  - `EndToEnd` and `UnknownSession` build the portal from a parsed dataset
    holding one day `mon` with one session `s1`. That session has code `XY9`
    and no status, so it loads as pending. They walk the portal through a
    submission, a resubmission and an unknown id.
  - `ResetRevertsSubmissions` starts from any dataset that loads and handles
    any request. It shows that a reset brings back the start-up model.

Modelling choices:

- The lookup returns a position (day index, entry index) instead of
  references to the day and entry objects. The store updates the entry at that
  position.
- The parsed dataset is a value of the shape the loader expects:
  - `Payload`, with optional `days`;
  - `RawDay`, holding the string-valued keys of the day and optional `entries`;
  - `RawEntry`, the string-valued keys of one entry.
- A missing required key gives `Err(MissingKey(key))`. That key is the first
  one Python's evaluation order reaches:
  - for an entry, `session_id`, `course_code`, `slot_label`, `time_label`, in
    that order;
  - for a day, the entries are converted before `anchor` and `label` are read.
- Requests are values. The query string is a `map`, and the verb is `Get` or
  `Post` carrying the form field if it is present. The two failures are the
  `BadRequest` and `NotFound` responses.
- `label` is a reserved word in Dafny, so the day's label is the field `dayLabel`.

The model follows what the code does, including where it is looser than the
portal's intended contract:

- `status` is any string. The comparison branch runs for every status other
  than `submitted` and `locked`, not only for `pending`. Nothing rejects
  unrecognized statuses at load time.
- An entry whose `code` is empty, or whitespace only, accepts an empty or blank
  candidate when its status is neither `submitted` nor `locked`
  (`src/server.py:48`, `BlankCodeAcceptsBlank`).
- Session ids are not checked for uniqueness. The lookup returns the first
  match, in day order and then entry order.
- "No field of the listing contains the code" cannot hold in general, since a
  code may equal a course code. What the code does guarantee is proved
  instead: the listing and the detail do not depend on the code at all
  (`GroupsIgnoreCodes`, `DetailIgnoresCode`).

## Model

| member | source | states |
|---|---|---|
| `DataLoader.LoadEntry` | src/data_loader.py:36-43 | Transcribes one entry's conversion. The four required keys are read in source order, and the first one missing is the error. `status` and `code` fall back to `"pending"` and `""`. What it means is stated by `LoadSucceedsIffWellFormed` and `LoadedShape`. |
| `DataLoader.LoadDay` | src/data_loader.py:35-46 | Transcribes one day's conversion. The entries are converted first, then `anchor` and `label` are read. What it means is stated by `LoadSucceedsIffWellFormed` and `LoadedShape`. |
| `DataLoader.Load` | src/data_loader.py:33-47 | Transcribes the whole conversion, with `days` and `entries` defaulting to empty lists. `LoadModel` is proved equal to it, and the lemmas below state its meaning. |
| `DataLoader.MapAll` | src/data_loader.py:35-45 | Converting a list succeeds exactly when every element converts. On success the result has the same length and order, element by element. |
| `DataLoader.MapAllFirstError` | src/data_loader.py:35-46 | When a conversion fails, the error raised is the one from the first element that fails. |
| `DataLoader.LoadModel` | src/data_loader.py:31-47 | The conversion loop returns exactly `Load(p)`. It stops at the first day that fails. |
| `DataLoader.LoadSucceedsIffWellFormed` | src/data_loader.py:36-46 | A load succeeds if and only if every day has `anchor` and `label` and every entry has the four required keys. |
| `DataLoader.MissingEntryKeyFails` | src/data_loader.py:37-40 | If any entry lacks `session_id`, `course_code`, `slot_label` or `time_label`, the load fails and returns no model. |
| `DataLoader.MissingDayKeyFails` | src/data_loader.py:46 | If any day lacks `anchor` or `label`, the load fails. |
| `DataLoader.MissingListsAreEmpty` | src/data_loader.py:34-44 | A payload without `days` loads to the empty model. A day without `entries` loads with no entries. |
| `DataLoader.LoadedShape` | src/data_loader.py:33-47 | A successful load has as many days and entries as the payload, in the same order. Anchor, label and the four required fields are copied verbatim. `status` defaults to `"pending"` and `code` to `""`. |
| `DataLoader.FindIn` | src/data_loader.py:52-54 | Returns the first index in a day whose entry has the session id, or None exactly when no entry in the day has it. |
| `DataLoader.Find` | src/data_loader.py:50-55 | Returns a valid position holding the id, with no earlier position (in day order, then entry order) holding it. Returns None exactly when no entry of any day has the id. |
| `DataLoader.FindEntry` | src/data_loader.py:50-55 | The nested scan with early return gives exactly `Find`. It does not change the model. |
| `DataLoader.FindDependsOnlyOnIds` | src/data_loader.py:53 | The lookup result depends only on where the session ids are. |
| `DataLoader.Groups` | src/data_loader.py:58-77 | Transcribes the listing: one group per day, and each entry without its code. `DayGroups` is proved equal to it, and `GroupsShape` and `GroupsIgnoreCodes` state its meaning. |
| `DataLoader.DayGroups` | src/data_loader.py:58-77 | The listing loop returns exactly `Groups(m.days)`. It does not change the model. |
| `DataLoader.GroupsShape` | src/data_loader.py:60-75 | The listing has one group per day, in order, with anchor and label copied. Each entry, in order, shows exactly id, course, slot, time and current status. |
| `DataLoader.GroupsIgnoreCodes` | src/data_loader.py:66-72 | Two models that differ only in their codes give the same listing, so the listing reveals nothing about the code. |
| `Text.Strip` | src/server.py:48 | Transcribes `str.strip()` as the end trim of the start trim. `StripIsSlice`, `StripIgnoresPadding` and `StripIdempotent` state its meaning. |
| `Text.Normalize` | src/server.py:48 | Transcribes `s.strip().upper()`, the form both sides of the code check take. `NormalizeIdempotent` and `NormalizeIgnoresCaseAndPadding` state its meaning. |
| `Text.TrimStart` | src/server.py:48 | The result is the longest suffix that does not start with whitespace. Everything removed is whitespace. |
| `Text.TrimEnd` | src/server.py:48 | The result is the longest prefix that does not end with whitespace. Everything removed is whitespace. |
| `Text.StripIsSlice` | src/server.py:48 | `strip()` returns a contiguous slice of the input, with only whitespace outside it and no whitespace at either end of it. |
| `Text.StripIgnoresPadding` | src/server.py:48 | Whitespace padding on either side does not change `strip()`. |
| `Text.StripIdempotent` | src/server.py:48 | Stripping twice is stripping once. |
| `Text.StripUpperCommute` | src/server.py:48 | `s.strip().upper() == s.upper().strip()`. |
| `Text.NormalizeIdempotent` | src/server.py:48 | Normalizing an already normalized string changes nothing. |
| `Text.NormalizeIgnoresCaseAndPadding` | src/server.py:48 | Upper-casing and whitespace padding of the input do not change its normalization. |
| `Server.SessionParam` | src/server.py:28 | Transcribes `query.get("s") or query.get("session")`, with an empty result as no id. `SessionParamChoice` states its meaning. |
| `Server.Candidate` | src/server.py:37-48 | Transcribes the form lookup with default `""` and the `code or ""` guard. An absent field is the empty candidate. |
| `Server.Accepts` | src/server.py:43-48 | Transcribes the three branches that decide `ok`. The lemmas on the status machine below state its meaning. |
| `Server.AfterSubmit` | src/server.py:47-50 | Transcribes the status write: only the comparison branch, on a match, sets "submitted". `AcceptedIffSubmittedAfter` ties it to `Accepts`. |
| `Server.Submit` | src/server.py:41-50 | The model after a submission: the transition of the matched entry, written back at its position. |
| `Server.DetailOf` | src/server.py:61-66 | Transcribes `entry_map`: course, slot, time and status. `DetailIgnoresCode` states that the code is not among them. |
| `Server.Page` | src/server.py:57-66 | Transcribes the second lookup and the page built from it. An id that is not found gives not-found. |
| `Server.HandleEntrySpec` | src/server.py:27-66 | Transcribes the whole entry handler: the id check, then `HandleSession`. The handler lemmas below state its meaning, and `Portal.HandleEntry` is proved equal to it. |
| `Server.HandleSession` | src/server.py:31-66 | Transcribes the handler once the id is known: a GET shows the page, and a POST looks the entry up, submits, and shows the page for the new model. |
| `Server.CodeExamplesAccepted` | src/server.py:48 | For the code "AB12", the candidates "ab12", " Ab12 " and "AB12" match. |
| `Server.CodeExamplesRejected` | src/server.py:48 | For the code "AB12", the candidates "AB1", "AB123" and "" do not match. |
| `Server.BlankCodeAcceptsBlank` | src/server.py:47-50 | An entry that is neither submitted nor locked, whose code is empty or whitespace only, accepts every empty or blank candidate and becomes submitted. |
| `Server.SubmittedAcceptsAnything` | src/server.py:43-44 | A submitted entry accepts every candidate, "" included, and is left unchanged. |
| `Server.LockedRefusesAnything` | src/server.py:45-46 | A locked entry refuses every candidate, its exact code included, and is left unchanged. |
| `Server.OpenEntryCompares` | src/server.py:47-50 | For any other status, a submission is accepted exactly when the stripped, upper-cased code equals the stripped, upper-cased candidate. On acceptance the status becomes "submitted"; otherwise the entry is unchanged. |
| `Server.AcceptedIffSubmittedAfter` | src/server.py:42-50 | A submission is accepted if and only if the entry is submitted afterwards. The only change a submission can make is the edge from an open status into "submitted". |
| `Server.SetStatus` | src/server.py:50 | Writing one entry's status keeps every day, its anchor, label and entry count, and every other entry. That entry keeps all its fields except the new status. |
| `Server.SessionParamChoice` | src/server.py:28-29 | A non-empty `s` wins, otherwise `session` is used. The id is absent exactly when neither is non-empty. |
| `Server.MissingIdIsBadRequest` | src/server.py:28-30 | With no non-empty id, the response is a bad request and the model is untouched. |
| `Server.UnknownIdIsNotFound` | src/server.py:35-59 | An id that no session carries gives not-found, on both GET and POST, with the model untouched. |
| `Server.FindIgnoresStatus` | src/server.py:57-60 | Changing a status does not change what the second lookup finds. |
| `Server.SubmitPage` | src/server.py:50-60 | After a submission, the model is either unchanged or the entry's status is set to "submitted". The second lookup shows that entry in its post-submission state. |
| `Server.SubmissionOutcome` | src/server.py:41-66 | A POST for a found session ends in the state machine's outcome. The message is the success text if and only if the attempt was accepted, and `error` is set if and only if it was refused. The model changes only by that entry's transition. The page shows that entry's course, slot, time and post-submission status. |
| `Server.ResubmitAfterSuccess` | src/server.py:43-50 | After an accepted submission, the entry is submitted. Any second POST for that id then goes through the submitted branch: it is accepted, the model is unchanged, and the page shows "submitted". |
| `Server.OnlyMatchedStatusChanges` | src/server.py:41-50 | Any request keeps the days, their order and their entries. At most one entry's status can change, the first match for the requested id, and only into "submitted". |
| `Server.GetChangesNothing` | src/server.py:32-66 | A GET leaves the model unchanged and shows no message and no error. |
| `Server.DetailIgnoresCode` | src/server.py:61-66 | The detail shown does not depend on the entry's code. |
| `Server.Portal.constructor` | src/server.py:78-81 | At start-up the portal holds the model the dataset loads to. |
| `Server.Portal.Units` | src/server.py:19-21 | The units page gets the day listing of the current model. |
| `Server.Portal.HandleEntry` | src/server.py:27-69 | The handler's new model and response are exactly `HandleEntrySpec` of the old model and the request. |
| `Server.Portal.Reset` | src/server.py:72-75 | A reset installs the freshly loaded model and reports success, so every earlier submission reverts to the dataset's status. If the reload fails, the old model stays installed and the load error is returned. |

## Left out

- `src/templates.py`: HTML assembly and escaping are presentation. The model
  stops at the values handed to the renderer: the listing, the detail, the
  message and the `error` flag.
- `base_href`, the request URL without its query, is not modelled
  (`src/server.py:22`, `src/server.py:67`). Both handlers pass it to the
  renderer.
- HTTP plumbing is not modelled: routing, redirects, static routes, the missing
  static-assets check, argument parsing, `main` and `run_app`. The HTTP status
  codes behind the bad-request and not-found responses are not modelled either.
- Reading the data file and `json.loads` are not modelled. The loader starts
  from an already-parsed payload. A JSON value of an unexpected type is not
  modelled: a non-string field, a `days` or `entries` that is not a list, or a
  top level that is not an object.
- `Text.IsSpace`, `Text.Upper`: approximate Python's Unicode `str.strip()` and
  `str.upper()`. Whitespace is what `str.isspace()` accepts below 128, and
  only `a`..`z` are upper-cased.
- Concurrency is not modelled: the asynchronous handlers and the swap of the
  shared model reference. Every operation is sequential.
- Object identity and aliasing are not modelled. The lookup gives a position,
  and a status write is a functional update of the model held by `Portal`.
- `Server.Portal.constructor`: requires the start-up dataset to load. When it
  does not, the application is not created at all (`src/server.py:81`), and
  that failure is not modelled.
- The request query is a `map`. A repeated query key is not modelled: Python's
  `query.get` returns its first value.
- `DataLoader.GroupsIgnoreCodes`: is weaker than "no listed field equals or
  contains the code". The code can meet only a non-interference guarantee,
  and that is what is stated.
- A reset whose reload raises gives a server error in Python. The model
  instead returns the load error from `Server.Portal.Reset` and keeps the old
  model, which is what the failed assignment leaves behind.
