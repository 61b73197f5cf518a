/** Lead store and scoring (core/lead_management.py): the validated lead
    record, the in-memory lead and conversation stores, the scoring rubric and
    the CSV import over already-parsed rows.  The Firestore backend is not
    modelled; the store is the in-memory branch. */
module Leads {
  import opened Base
  import opened Text

  /** A validated lead record (LeadModel). */
  datatype Lead = Lead(
    id: Option<string>,
    name: string,
    email: Option<string>,
    phone: Option<string>,
    company: Option<string>,
    notes: Option<string>,
    source: string,
    status: string,
    score: int,
    doNotCall: bool,
    createdAt: string,
    updatedAt: Option<string>)

  /** One conversation turn (ConversationEntry). */
  datatype ConversationEntry = ConversationEntry(
    leadId: string, role: string, message: string, timestamp: string, meta: Dict)

  // ---------------------------------------------------------------------------
  // Validation (LeadModel(**data))
  // ---------------------------------------------------------------------------

  /** A field declared `Optional[str]`: absent takes the default, `None` and strings are accepted. */
  predicate OptionalStrOk(d: Dict, k: string) {
    k !in d || d[k].Null? || d[k].Str?
  }

  function OptionalStr(d: Dict, k: string, default: Option<string>): Option<string> {
    if k !in d then default else if d[k].Str? then Some(d[k].s) else None
  }

  /** `name: str = Field(..., min_length=1)`: required, a string, at least one character. */
  predicate NameOk(d: Dict) {
    "name" in d && d["name"].Str? && |d["name"].s| >= 1
  }

  function FieldErrors(d: Dict): (errs: seq<string>)
    ensures errs == [] <==> (NameOk(d) && OptionalStrOk(d, "id") && OptionalStrOk(d, "email")
      && OptionalStrOk(d, "phone") && OptionalStrOk(d, "company") && OptionalStrOk(d, "notes")
      && StrOk(d, "source") && StrOk(d, "status") && StrOk(d, "created_at")
      && OptionalStrOk(d, "updated_at")
      && ("score" !in d || d["score"].Int?) && ("do_not_call" !in d || d["do_not_call"].Bool?))
  {
    (if OptionalStrOk(d, "id") then [] else ["id"])
    + (if NameOk(d) then [] else ["name"])
    + (if OptionalStrOk(d, "email") then [] else ["email"])
    + (if OptionalStrOk(d, "phone") then [] else ["phone"])
    + (if OptionalStrOk(d, "company") then [] else ["company"])
    + (if OptionalStrOk(d, "notes") then [] else ["notes"])
    + (if StrOk(d, "source") then [] else ["source"])
    + (if StrOk(d, "status") then [] else ["status"])
    + (if "score" !in d || d["score"].Int? then [] else ["score"])
    + (if "do_not_call" !in d || d["do_not_call"].Bool? then [] else ["do_not_call"])
    + (if StrOk(d, "created_at") then [] else ["created_at"])
    + (if OptionalStrOk(d, "updated_at") then [] else ["updated_at"])
  }

  /** Builds a LeadModel from a dictionary; `now` stands for the creation
      timestamp the model takes when none is supplied. */
  function ValidateLead(d: Dict, now: string): (r: Result<Lead, ValidationError>)
    ensures r.Ok? <==> FieldErrors(d) == []
    ensures !NameOk(d) ==> r.Err? && "name" in r.error.fields
    ensures r.Ok? ==> |r.value.name| >= 1 && Str(r.value.name) == d["name"]
    ensures r.Ok? ==> r.value.status == (if "status" in d then d["status"].s else "new")
    ensures r.Ok? ==> r.value.source == (if "source" in d then d["source"].s else "unknown")
    ensures r.Ok? ==> r.value.notes == (if "notes" !in d then Some("") else if d["notes"].Null? then None else Some(d["notes"].s))
    ensures r.Ok? ==> r.value.score == (if "score" in d then d["score"].i else 0)
    ensures r.Ok? ==> r.value.doNotCall == ("do_not_call" in d && d["do_not_call"].b)
    ensures r.Ok? ==> r.value.id == (if "id" in d && d["id"].Str? then Some(d["id"].s) else None)
    ensures r.Ok? ==> r.value.email == (if "email" in d && d["email"].Str? then Some(d["email"].s) else None)
    ensures r.Ok? ==> r.value.phone == (if "phone" in d && d["phone"].Str? then Some(d["phone"].s) else None)
    ensures r.Ok? ==> r.value.company == (if "company" in d && d["company"].Str? then Some(d["company"].s) else None)
    ensures r.Ok? ==> r.value.createdAt == (if "created_at" in d then d["created_at"].s else now)
    ensures r.Ok? ==> r.value.updatedAt == (if "updated_at" in d && d["updated_at"].Str? then Some(d["updated_at"].s) else None)
  {
    var errs := FieldErrors(d);
    if errs != [] then Err(ValidationError(errs))
    else
      Ok(Lead(
        id := OptionalStr(d, "id", None),
        name := d["name"].s,
        email := OptionalStr(d, "email", None),
        phone := OptionalStr(d, "phone", None),
        company := OptionalStr(d, "company", None),
        notes := OptionalStr(d, "notes", Some("")),
        source := StrOr(d, "source", "unknown"),
        status := StrOr(d, "status", "new"),
        score := if "score" in d then d["score"].i else 0,
        doNotCall := "do_not_call" in d && d["do_not_call"].b,
        createdAt := StrOr(d, "created_at", now),
        updatedAt := OptionalStr(d, "updated_at", None)))
  }

  function OptionValue(o: Option<string>): Value {
    match o
    case None => Null
    case Some(s) => Str(s)
  }

  /** `lead.model_dump()` */
  function ToDict(l: Lead): (d: Dict)
    ensures d.Keys == {"id", "name", "email", "phone", "company", "notes", "source", "status",
                       "score", "do_not_call", "created_at", "updated_at"}
    ensures d["name"] == Str(l.name) && d["status"] == Str(l.status)
    ensures d["do_not_call"] == Bool(l.doNotCall)
  {
    map[
      "id" := OptionValue(l.id), "name" := Str(l.name), "email" := OptionValue(l.email),
      "phone" := OptionValue(l.phone), "company" := OptionValue(l.company),
      "notes" := OptionValue(l.notes), "source" := Str(l.source), "status" := Str(l.status),
      "score" := Int(l.score), "do_not_call" := Bool(l.doNotCall),
      "created_at" := Str(l.createdAt), "updated_at" := OptionValue(l.updatedAt)]
  }

  /** Dumping a validated lead and validating the dump again gives the same lead. */
  lemma DumpRoundTrip(l: Lead, now: string)
    requires |l.name| >= 1
    ensures ValidateLead(ToDict(l), now) == Ok(l)
  {
    var d := ToDict(l);
    assert FieldErrors(d) == [];
  }

  // ---------------------------------------------------------------------------
  // Saving (save_lead), as a transformation of the store
  // ---------------------------------------------------------------------------

  /** `lead.id or <timestamp id>`: a supplied non-empty id is kept. */
  function AssignedId(l: Lead, stamp: string): (id: string)
    ensures Present(l.id) ==> id == l.id.value
    ensures !Present(l.id) ==> id == stamp
  {
    if Present(l.id) then l.id.value else stamp
  }

  /** The record save_lead stores: the validated lead with its id and update time set. */
  function Stamped(l: Lead, stamp: string, now: string): (s: Lead)
    ensures s.id == Some(AssignedId(l, stamp)) && s.updatedAt == Some(now)
    ensures s.(id := l.id, updatedAt := l.updatedAt) == l
  {
    l.(id := Some(AssignedId(l, stamp)), updatedAt := Some(now))
  }

  datatype Saved = Saved(result: Result<string, ValidationError>, db: map<string, Lead>)

  /** save_lead on the in-memory store `db`.  A lead that fails validation
      raises; the store is then unchanged. */
  function SaveInto(db: map<string, Lead>, d: Dict, stamp: string, now: string): (s: Saved)
    ensures s.result.Ok? <==> ValidateLead(d, now).Ok?
    ensures s.result.Err? ==> s.db == db && s.result.error == ValidateLead(d, now).error
    ensures s.result.Ok? ==>
      var id := s.result.value;
      id == AssignedId(ValidateLead(d, now).value, stamp)
      && id in s.db && s.db[id] == Stamped(ValidateLead(d, now).value, stamp, now)
      && s.db.Keys == db.Keys + {id}
      && (forall k :: k in db && k != id ==> s.db[k] == db[k])
  {
    match ValidateLead(d, now)
    case Err(e) => Saved(Err(e), db)
    case Ok(l) =>
      var id := AssignedId(l, stamp);
      Saved(Ok(id), db[id := Stamped(l, stamp, now)])
  }

  /** A lead that supplies a non-empty id is stored under that id, and the
      stored record keeps it. */
  lemma SaveKeepsSuppliedId(db: map<string, Lead>, d: Dict, stamp: string, now: string)
    requires ValidateLead(d, now).Ok?
    requires "id" in d && d["id"].Str? && d["id"].s != ""
    ensures SaveInto(db, d, stamp, now).result == Ok(d["id"].s)
    ensures SaveInto(db, d, stamp, now).db[d["id"].s].id == Some(d["id"].s)
  {
  }

  /** The record `{"name": "A", "id": "x"}` is stored under "x". */
  lemma SavesUnderGivenId(db: map<string, Lead>, stamp: string, now: string)
    ensures var s := SaveInto(db, map["name" := Str("A"), "id" := Str("x")], stamp, now);
      s.result == Ok("x") && s.db["x"].name == "A" && s.db["x"].id == Some("x")
  {
    var d := map["name" := Str("A"), "id" := Str("x")];
    assert FieldErrors(d) == [];
    SaveKeepsSuppliedId(db, d, stamp, now);
  }

  /** A lead without a non-empty name is never stored. */
  lemma SaveRejectsMissingName(db: map<string, Lead>, d: Dict, stamp: string, now: string)
    requires !NameOk(d)
    ensures SaveInto(db, d, stamp, now).result.Err?
    ensures "name" in SaveInto(db, d, stamp, now).result.error.fields
    ensures SaveInto(db, d, stamp, now).db == db
  {
  }

  // ---------------------------------------------------------------------------
  // Conversation history (save_conversation), as a transformation
  // ---------------------------------------------------------------------------

  /** `history.setdefault(lead_id, []).append(entry)` */
  function AppendTurn(h: map<string, seq<ConversationEntry>>, e: ConversationEntry)
    : (h': map<string, seq<ConversationEntry>>)
    ensures h'.Keys == h.Keys + {e.leadId}
    ensures h'[e.leadId] == (if e.leadId in h then h[e.leadId] else []) + [e]
    ensures forall k :: k in h && k != e.leadId ==> h'[k] == h[k]
  {
    h[e.leadId := (if e.leadId in h then h[e.leadId] else []) + [e]]
  }

  /** The entry save_conversation builds; `meta or {}` turns a missing or empty meta into `{}`. */
  function Turn(leadId: string, role: string, message: string, meta: Option<Dict>, now: string)
    : (e: ConversationEntry)
    ensures e.leadId == leadId && e.role == role && e.message == message
    ensures meta.None? ==> e.meta == map[]
    ensures meta.Some? ==> e.meta == meta.value
  {
    ConversationEntry(leadId, role, message, now, if meta.Some? && meta.value != map[] then meta.value else map[])
  }

  // ---------------------------------------------------------------------------
  // Scoring rubric (calculate_lead_score)
  // ---------------------------------------------------------------------------

  predicate MentionsVeteran(notes: string) {
    Contains(Lower(notes), "va") || Contains(Lower(notes), "veteran")
  }

  predicate Working(status: string) {
    Contains(Lower(status), "working")
  }

  predicate Milestone(status: string, notes: string) {
    Contains(Lower(status), "qualified") || Contains(Lower(notes), "appointment")
  }

  predicate Detailed(notes: string) {
    |Lower(notes)| > 50
  }

  /** The rubric on the lead's status and notes. */
  function Rubric(status: string, notes: string): (score: int)
    ensures 0 <= score <= 75 && score % 5 == 0
    ensures score >= 40 <==> Milestone(status, notes)
    ensures score == 75 <==> MentionsVeteran(notes) && Working(status) && Milestone(status, notes) && Detailed(notes)
    ensures score == 0 <==> !MentionsVeteran(notes) && !Working(status) && !Milestone(status, notes) && !Detailed(notes)
  {
    var s := status;
    var n := notes;
    (if Contains(Lower(n), "va") || Contains(Lower(n), "veteran") then 10 else 0)
    + (if Contains(Lower(s), "working") then 15 else 0)
    + (if Contains(Lower(s), "qualified") || Contains(Lower(n), "appointment") then 40 else 0)
    + (if |Lower(n)| > 50 then 10 else 0)
  }

  /** calculate_lead_score: `status` defaults to "new" and `notes` to "";
      a value that is not a string makes `.lower()` raise, shown as `None`. */
  function CalculateLeadScore(lead: Dict): (r: Option<int>)
    ensures r.Some? <==> Get(lead, "status", Str("new")).Str? && Get(lead, "notes", Str("")).Str?
    ensures r.Some? ==> 0 <= r.value <= 75
    ensures r.Some? ==> r.value == Rubric(Get(lead, "status", Str("new")).s, Get(lead, "notes", Str("")).s)
  {
    var status := Get(lead, "status", Str("new"));
    var notes := Get(lead, "notes", Str(""));
    if status.Str? && notes.Str? then Some(Rubric(status.s, notes.s)) else None
  }

  lemma ContainsExtend(a: string, b: string, sub: string)
    requires Contains(a, sub)
    ensures Contains(a + b, sub)
  {
    ContainsIff(a, sub);
    var j: nat :| OccursAt(a, sub, j);
    assert (a + b)[j..j + |sub|] == a[j..j + |sub|];
    ContainsWitness(a + b, sub, j);
  }

  /** Adding text to the notes never lowers the score: every bonus that
      applied still applies. */
  lemma {:induction false} RubricMonotoneInNotes(status: string, notes: string, more: string)
    ensures Rubric(status, notes + more) >= Rubric(status, notes)
  {
    LowerAppend(notes, more);
    var l, l' := Lower(notes), Lower(notes + more);
    assert l' == l + Lower(more);
    if Contains(l, "va") { ContainsExtend(l, Lower(more), "va"); }
    if Contains(l, "veteran") { ContainsExtend(l, Lower(more), "veteran"); }
    if Contains(l, "appointment") { ContainsExtend(l, Lower(more), "appointment"); }
  }

  /** Status words are matched without regard to case. */
  lemma RubricIgnoresCase(status: string, notes: string)
    ensures Rubric(Lower(status), Lower(notes)) == Rubric(status, notes)
  {
    LowerIdempotent(status);
    LowerIdempotent(notes);
  }

  // The leads of the scoring tests.  Each text is a parameter fixed by the
  // precondition, and each lemma settles one part of the rubric for it.

  lemma NewStatus(status: string)
    requires status == "new"
    ensures !Working(status) && !Contains(Lower(status), "qualified")
  {
    NotContainsShort(Lower(status), "working");
    NotContainsShort(Lower(status), "qualified");
  }

  lemma VaNotes(notes: string)
    requires notes == "Looking for VA loan information."
    ensures MentionsVeteran(notes)
  {
    assert notes == "Looking for " + "VA" + " loan information.";
    ContainsLowerWithin("Looking for ", "VA", " loan information.", "va");
  }

  lemma VaNotesLackP(notes: string, c: char)
    requires notes == "Looking for VA loan information." && (c == 'p' || c == 'P')
    ensures c !in notes
  {
  }

  lemma VaNotesPlain(notes: string)
    requires notes == "Looking for VA loan information."
    ensures !Contains(Lower(notes), "appointment") && !Detailed(notes)
  {
    VaNotesLackP(notes, 'p');
    VaNotesLackP(notes, 'P');
    LacksInLower(notes, "appointment", 1, 'p', 'P');
  }

  /** Notes mentioning a VA loan on a new lead score 10. */
  lemma ScoresVaLead(lead: Dict)
    requires lead == map["name" := Str("John Doe"), "notes" := Str("Looking for VA loan information."),
                         "status" := Str("new")]
    ensures CalculateLeadScore(lead) == Some(10)
  {
    VaNotes(lead["notes"].s);
    VaNotesPlain(lead["notes"].s);
    NewStatus(lead["status"].s);
  }

  /** The conventional-loan notes, cut at their two `o`s. */
  lemma ConventionalNotes(notes: string)
    requires notes == "Standard conventional loan request."
    ensures !MentionsVeteran(notes)
  {
    var a, b, c := "Standard c", "nventi", "nal loan request.";
    assert notes == a + ['o'] + b + ['o'] + c;
    NoVaInPieces(a, b, c);
    NoVeteranInPieces(a, b, c);
  }

  lemma NoVaInPieces(a: string, b: string, c: string)
    requires a == "Standard c" && b == "nventi" && c == "nal loan request."
    ensures !Contains(Lower(a + ['o'] + b + ['o'] + c), "va")
  {
    LacksInLower(a, "va", 0, 'v', 'V');
    LacksInLower(b, "va", 1, 'a', 'A');
    LacksInLower(c, "va", 0, 'v', 'V');
    NotContainsLowerAcross(a, 'o', b, "va");
    NotContainsLowerAcross(a + ['o'] + b, 'o', c, "va");
  }

  lemma NoVeteranInPieces(a: string, b: string, c: string)
    requires a == "Standard c" && b == "nventi" && c == "nal loan request."
    ensures !Contains(Lower(a + ['o'] + b + ['o'] + c), "veteran")
  {
    LacksInLower(a, "veteran", 0, 'v', 'V');
    NotContainsShort(Lower(b), "veteran");
    LacksInLower(c, "veteran", 0, 'v', 'V');
    NotContainsLowerAcross(a, 'o', b, "veteran");
    NotContainsLowerAcross(a + ['o'] + b, 'o', c, "veteran");
  }

  lemma ConventionalNotesLackP(notes: string, c: char)
    requires notes == "Standard conventional loan request." && (c == 'p' || c == 'P')
    ensures c !in notes
  {
  }

  lemma ConventionalNotesPlain(notes: string)
    requires notes == "Standard conventional loan request."
    ensures !Contains(Lower(notes), "appointment") && !Detailed(notes)
  {
    ConventionalNotesLackP(notes, 'p');
    ConventionalNotesLackP(notes, 'P');
    LacksInLower(notes, "appointment", 1, 'p', 'P');
  }

  lemma ContactedStatus(status: string)
    requires status == "working - contacted"
    ensures Working(status) && !Contains(Lower(status), "qualified")
  {
    assert status == "working" + " - contacted";
    ContainsLowerPrefix("working", " - contacted", "working");
    LacksInLower(status, "qualified", 0, 'q', 'Q');
  }

  lemma ContactRubric(status: string, notes: string)
    requires status == "working - contacted" && notes == "Standard conventional loan request."
    ensures Rubric(status, notes) == 15
  {
    ConventionalNotes(notes);
    ConventionalNotesPlain(notes);
    ContactedStatus(status);
  }

  /** A contacted lead with plain notes scores 15. */
  lemma ScoresWorkingContact(lead: Dict)
    requires lead == map["name" := Str("Jane Smith"), "notes" := Str("Standard conventional loan request."),
                         "status" := Str("working - contacted")]
    ensures CalculateLeadScore(lead) == Some(15)
  {
    ContactRubric(lead["status"].s, lead["notes"].s);
  }

  lemma VeteranNotes(first: string, rest: string)
    requires first == "Veteran" && rest == " borrower. Scheduled appointment for Monday."
    ensures MentionsVeteran(first + rest) && Detailed(first + rest)
  {
    ContainsLowerPrefix(first, rest, "veteran");
  }

  lemma QualifiedStatus(status: string)
    requires status == "qualified"
    ensures !Working(status) && Contains(Lower(status), "qualified")
  {
    assert status == "qualified" + "";
    ContainsLowerPrefix("qualified", "", "qualified");
    LacksInLower(status, "working", 0, 'w', 'W');
  }

  /** A qualified veteran with long notes scores 60 (the notes are written
      in the two pieces `VeteranNotes` cuts them into). */
  lemma ScoresAppointment(lead: Dict)
    requires lead == map["name" := Str("Bob Veteran"),
                         "notes" := Str("Veteran" + " borrower. Scheduled appointment for Monday."),
                         "status" := Str("qualified")]
    ensures CalculateLeadScore(lead) == Some(60)
  {
    VeteranNotes("Veteran", " borrower. Scheduled appointment for Monday.");
    QualifiedStatus(lead["status"].s);
  }

  /** Two texts joined by a space. */
  function Spaced(x: string, y: string): string {
    x + " " + y
  }

  /** A text with no `v` holds neither "va" nor "veteran". */
  lemma NoVeteranWithoutV(s: string)
    requires 'v' !in s && 'V' !in s
    ensures !MentionsVeteran(s)
  {
    LacksInLower(s, "va", 0, 'v', 'V');
    LacksInLower(s, "veteran", 0, 'v', 'V');
  }

  /** The pieces of the long notes from the detailed-notes test, cut at its
      spaces: none has a `v`, and each lacks a letter of "appointment".  The
      facts are proved one piece at a time and joined by DetailedNotes via
      NotContainsLowerAcross, because the solver handles a long string
      literal far worse than a few short ones. */
  lemma NotesLongDetailed(x: string)
    requires x == "Long detailed"
    ensures !Contains(Lower(x), "appointment") && 'v' !in x && 'V' !in x
  {
    LacksInLower(x, "appointment", 1, 'p', 'P');
  }

  lemma NotesDescription(x: string)
    requires x == "description"
    ensures !Contains(Lower(x), "appointment") && 'v' !in x && 'V' !in x
  {
    LacksInLower(x, "appointment", 0, 'a', 'A');
  }

  lemma NotesOfFinancial(x: string)
    requires x == "of financial"
    ensures !Contains(Lower(x), "appointment") && 'v' !in x && 'V' !in x
  {
    LacksInLower(x, "appointment", 7, 'm', 'M');
  }

  lemma NotesGoalsAnd(x: string)
    requires x == "goals and"
    ensures !Contains(Lower(x), "appointment") && 'v' !in x && 'V' !in x
  {
    LacksInLower(x, "appointment", 7, 'm', 'M');
  }

  lemma NotesPropertyInterests(x: string)
    requires x == "property interests"
    ensures !Contains(Lower(x), "appointment") && 'v' !in x && 'V' !in x
  {
    LacksInLower(x, "appointment", 7, 'm', 'M');
  }

  lemma NotesSeattleArea(x: string)
    requires x == "in the Seattle area"
    ensures !Contains(Lower(x), "appointment") && 'v' !in x && 'V' !in x
  {
    LacksInLower(x, "appointment", 1, 'p', 'P');
  }

  lemma NotesWithAFocus(x: string)
    requires x == "with a focus on"
    ensures !Contains(Lower(x), "appointment") && 'v' !in x && 'V' !in x
  {
    LacksInLower(x, "appointment", 1, 'p', 'P');
  }

  lemma NotesJumboLoans(x: string)
    requires x == "jumbo loans."
    ensures !Contains(Lower(x), "appointment") && 'v' !in x && 'V' !in x
  {
    LacksInLower(x, "appointment", 1, 'p', 'P');
  }

  /** The long notes, in the eight pieces they are cut into at spaces: neither
      "va", "veteran" nor "appointment" occurs, and they are over 50 characters. */
  lemma DetailedNotes(p1: string, p2: string, p3: string, p4: string, p5: string, p6: string, p7: string, p8: string)
    requires p1 == "Long detailed" && p2 == "description" && p3 == "of financial" && p4 == "goals and"
    requires p5 == "property interests" && p6 == "in the Seattle area" && p7 == "with a focus on" && p8 == "jumbo loans."
    ensures var notes := Spaced(Spaced(Spaced(Spaced(Spaced(Spaced(Spaced(p1, p2), p3), p4), p5), p6), p7), p8);
      !MentionsVeteran(notes) && !Contains(Lower(notes), "appointment") && Detailed(notes)
  {
    NotesLongDetailed(p1);
    NotesDescription(p2);
    NotesOfFinancial(p3);
    NotesGoalsAnd(p4);
    NotesPropertyInterests(p5);
    NotesSeattleArea(p6);
    NotesWithAFocus(p7);
    NotesJumboLoans(p8);
    var s1 := p1;
    NotContainsLowerAcross(s1, ' ', p2, "appointment");
    var s2 := Spaced(s1, p2);
    NotContainsLowerAcross(s2, ' ', p3, "appointment");
    var s3 := Spaced(s2, p3);
    NotContainsLowerAcross(s3, ' ', p4, "appointment");
    var s4 := Spaced(s3, p4);
    NotContainsLowerAcross(s4, ' ', p5, "appointment");
    var s5 := Spaced(s4, p5);
    NotContainsLowerAcross(s5, ' ', p6, "appointment");
    var s6 := Spaced(s5, p6);
    NotContainsLowerAcross(s6, ' ', p7, "appointment");
    var s7 := Spaced(s6, p7);
    NotContainsLowerAcross(s7, ' ', p8, "appointment");
    var s8 := Spaced(s7, p8);
    NoVeteranWithoutV(s8);
  }

  /** A new lead whose notes are long but mention nothing else scores 10
      (the notes are written in the eight pieces `DetailedNotes` cuts them into). */
  lemma ScoresDetailedNotes(lead: Dict)
    requires lead == map["name" := Str("Alice Green"),
      "notes" := Str("Long detailed" + " " + "description" + " " + "of financial" + " " + "goals and" + " "
                     + "property interests" + " " + "in the Seattle area" + " " + "with a focus on" + " " + "jumbo loans."),
      "status" := Str("new")]
    ensures CalculateLeadScore(lead) == Some(10)
  {
    DetailedNotes("Long detailed", "description", "of financial", "goals and",
                  "property interests", "in the Seattle area", "with a focus on", "jumbo loans.");
    NewStatus(lead["status"].s);
  }

  lemma LowerIdempotent(s: string)
    ensures Lower(Lower(s)) == Lower(s)
  {
    assert forall i :: 0 <= i < |s| ==> Lower(Lower(s))[i] == Lower(s)[i];
  }

  // ---------------------------------------------------------------------------
  // CSV import (process_csv_upload), over rows already parsed into dictionaries
  // ---------------------------------------------------------------------------

  /** A parsed CSV row: column name to cell.  The CSV reader fills the cells
      a short row lacks with `None`, so a cell is a string or `Null`. */
  type Row = Dict

  predicate CsvCells(row: Row) {
    forall k :: k in row ==> row[k].Str? || row[k].Null?
  }

  /** The dictionary process_csv_upload builds for one row, before scoring:
      nested `get` defaults (not `or`), so a present but empty cell is kept. */
  function CsvLeadData(row: Row): (d: Dict)
    ensures d.Keys == {"name", "email", "phone", "company", "notes", "source", "status"}
    ensures d["source"] == Str("csv_upload") && d["status"] == Str("new") && d["notes"].Str?
    ensures d["name"] == Get(row, "Primary Borrower", Get(row, "name", Get(row, "Name", Str("Unknown"))))
    ensures d["company"] == Get(row, "company", Get(row, "Company", Str("General Services")))
    ensures CsvCells(row) ==> forall k :: k in d ==> d[k].Str? || d[k].Null?
  {
    CsvFields(Get(row, "Primary Borrower", Get(row, "name", Get(row, "Name", Str("Unknown")))),
              Get(row, "Primary Borrower: Email", Get(row, "email", Get(row, "Email", Str("")))),
              Get(row, "phone", Get(row, "Phone", Str(""))),
              Get(row, "company", Get(row, "Company", Str("General Services"))),
              "Program: " + Show(Get(row, "Program", Str("N/A"))) + ". (Ref: "
              + Show(Get(row, "Loan Number", Str("N/A"))) + ")")
  }

  /** The import's dictionary, given its cells: tagged as a CSV upload with
      status "new", and with no id, score, do-not-call flag or timestamps. */
  function CsvFields(name: Value, email: Value, phone: Value, company: Value, notes: string): (d: Dict)
    ensures d.Keys == {"name", "email", "phone", "company", "notes", "source", "status"}
    ensures d["name"] == name && d["email"] == email && d["phone"] == phone && d["company"] == company
    ensures d["notes"] == Str(notes) && d["source"] == Str("csv_upload") && d["status"] == Str("new")
    ensures "id" !in d && "score" !in d && "do_not_call" !in d && "created_at" !in d && "updated_at" !in d
  {
    map["name" := name, "email" := email, "phone" := phone, "company" := company, "notes" := Str(notes),
        "source" := Str("csv_upload"), "status" := Str("new")]
  }

  /** A scored import dictionary with a non-empty name and string-or-null
      contact cells validates as a CSV-sourced lead with status "new", that
      score, and no do-not-call flag. */
  lemma ScoredFieldsValidate(name: Value, email: Value, phone: Value, company: Value, notes: string, score: int,
                             now: string)
    requires name.Str? && |name.s| >= 1
    requires (email.Str? || email.Null?) && (phone.Str? || phone.Null?) && (company.Str? || company.Null?)
    ensures var r := ValidateLead(CsvFields(name, email, phone, company, notes)["score" := Int(score)], now);
      r.Ok? && r.value.name == name.s && r.value.source == "csv_upload" && r.value.status == "new"
      && r.value.score == score && !r.value.doNotCall
  {
    var d := CsvFields(name, email, phone, company, notes)["score" := Int(score)];
    assert "id" !in d && "do_not_call" !in d && "created_at" !in d && "updated_at" !in d;
    assert NameOk(d);
    assert FieldErrors(d) == [];
  }

  /** The row's dictionary with its initial score added. */
  function ScoredCsvLead(row: Row): (d: Dict)
    ensures d.Keys == CsvLeadData(row).Keys + {"score"}
    ensures d["score"] == Int(Rubric("new", CsvLeadData(row)["notes"].s))
    ensures CalculateLeadScore(CsvLeadData(row)) == Some(d["score"].i)
    ensures forall k :: k in CsvLeadData(row) ==> d[k] == CsvLeadData(row)[k]
  {
    var d := CsvLeadData(row);
    d["score" := Int(Rubric(d["status"].s, d["notes"].s))]
  }

  datatype Upload = Upload(result: Result<nat, ValidationError>, db: map<string, Lead>)

  /** The dictionaries process_csv_upload hands to save_lead, one per row. */
  function CsvLeads(rows: seq<Row>): (ds: seq<Dict>)
    ensures |ds| == |rows| && forall i :: 0 <= i < |rows| ==> ds[i] == ScoredCsvLead(rows[i])
  {
    seq(|rows|, i requires 0 <= i < |rows| => ScoredCsvLead(rows[i]))
  }

  /** process_csv_upload's loop over the dictionaries `ds`, from entry `k`
      on; `stamps[k]` is the timestamp id generated for entry `k`.  An entry
      that fails validation raises out of the loop, leaving the entries
      before it saved. */
  function UploadFrom(db: map<string, Lead>, ds: seq<Dict>, k: nat, stamps: seq<string>, now: string)
    : (u: Upload)
    requires k <= |ds| == |stamps|
    ensures u.result.Ok? ==> u.result.value == |ds|
    ensures db.Keys <= u.db.Keys
    decreases |ds| - k
  {
    if k == |ds| then Upload(Ok(k), db)
    else
      var s := SaveInto(db, ds[k], stamps[k], now);
      if s.result.Err? then Upload(Err(s.result.error), s.db)
      else UploadFrom(s.db, ds, k + 1, stamps, now)
  }

  /** What the import stores for a row, when the row's lead validates. */
  predicate CsvTagged(l: Lead, row: Row) {
    l.source == "csv_upload" && l.status == "new" && l.score == Rubric("new", CsvLeadData(row)["notes"].s)
  }

  /** The record saved for a row's lead is tagged with the row. */
  lemma StoredCsvTagged(row: Row, stamp: string, now: string)
    requires ValidateLead(ScoredCsvLead(row), now).Ok?
    ensures CsvTagged(Stamped(ValidateLead(ScoredCsvLead(row), now).value, stamp, now), row)
  {
    var d := ScoredCsvLead(row);
    assert d["source"] == Str("csv_upload") && d["status"] == Str("new");
  }

  /** `l` is the record save_lead stores for the dictionary `d`. */
  predicate Stores(l: Lead, d: Dict, stamp: string, now: string) {
    ValidateLead(d, now).Ok? && l == Stamped(ValidateLead(d, now).value, stamp, now)
  }

  /** Every lead of `after` is either one of `before`, unchanged, or the
      record stored for one of `ds[lo..hi]`. */
  ghost predicate KeepsOrStores(before: map<string, Lead>, after: map<string, Lead>, ds: seq<Dict>,
                                stamps: seq<string>, lo: int, hi: int, now: string)
    requires 0 <= lo <= hi <= |ds| == |stamps|
  {
    forall id :: id in after ==>
      (id in before && after[id] == before[id]) || exists j :: lo <= j < hi && Stores(after[id], ds[j], stamps[j], now)
  }

  /** Two stretches of the upload, one after the other. */
  lemma KeepsOrStoresThen(a: map<string, Lead>, b: map<string, Lead>, c: map<string, Lead>, ds: seq<Dict>,
                          stamps: seq<string>, lo: int, mid: int, hi: int, now: string)
    requires 0 <= lo <= mid <= hi <= |ds| == |stamps|
    requires KeepsOrStores(a, b, ds, stamps, lo, mid, now) && KeepsOrStores(b, c, ds, stamps, mid, hi, now)
    ensures KeepsOrStores(a, c, ds, stamps, lo, hi, now)
  {
    forall id | id in c
      ensures (id in a && c[id] == a[id]) || exists j :: lo <= j < hi && Stores(c[id], ds[j], stamps[j], now)
    {
      if !(id in b && c[id] == b[id]) {
        var j :| mid <= j < hi && Stores(c[id], ds[j], stamps[j], now);
      } else if !(id in a && b[id] == a[id]) {
        var j :| lo <= j < mid && Stores(b[id], ds[j], stamps[j], now);
      }
    }
  }

  /** Saving one entry keeps every other lead and stores that entry's record. */
  lemma SaveKeepsOrStores(db: map<string, Lead>, ds: seq<Dict>, stamps: seq<string>, k: nat, now: string)
    requires k < |ds| == |stamps|
    ensures var s := SaveInto(db, ds[k], stamps[k], now);
      KeepsOrStores(db, s.db, ds, stamps, k, k + 1, now) && db.Keys <= s.db.Keys
  {
    var s := SaveInto(db, ds[k], stamps[k], now);
    if s.result.Ok? {
      forall id | id in s.db
        ensures (id in db && s.db[id] == db[id]) || exists j :: k <= j < k + 1 && Stores(s.db[id], ds[j], stamps[j], now)
      {
        if id == s.result.value {
          assert Stores(s.db[id], ds[k], stamps[k], now);
        }
      }
    }
  }

  /** An upload from entry `k` keeps every lead it does not store, only adds
      keys, and on success reports the number of entries. */
  lemma {:induction false} UploadKeepsOrStores(db: map<string, Lead>, ds: seq<Dict>, k: nat, stamps: seq<string>,
                                               now: string)
    requires k <= |ds| == |stamps|
    ensures var u := UploadFrom(db, ds, k, stamps, now);
      (u.result.Ok? ==> u.result.value == |ds|) && KeepsOrStores(db, u.db, ds, stamps, k, |ds|, now)
      && db.Keys <= u.db.Keys
    decreases |ds| - k
  {
    if k < |ds| {
      var s := SaveInto(db, ds[k], stamps[k], now);
      SaveKeepsOrStores(db, ds, stamps, k, now);
      if s.result.Ok? {
        UploadSavesAt(db, ds, k, stamps, now);
        UploadKeepsOrStores(s.db, ds, k + 1, stamps, now);
        KeepsOrStoresThen(db, s.db, UploadFrom(s.db, ds, k + 1, stamps, now).db, ds, stamps, k, k + 1, |ds|, now);
      } else {
        assert s.db == db;
      }
    }
  }

  /** Every lead the import touches is tagged as a CSV upload with status
      "new" and its rubric score; every other lead is left as it was; on
      success the count is the number of rows. */
  lemma UploadFromTags(db: map<string, Lead>, rows: seq<Row>, stamps: seq<string>, now: string)
    requires |rows| == |stamps|
    ensures var u := UploadFrom(db, CsvLeads(rows), 0, stamps, now);
      (u.result.Ok? ==> u.result.value == |rows|)
      && (forall id :: id in u.db ==>
            (id in db && u.db[id] == db[id]) || exists j :: 0 <= j < |rows| && CsvTagged(u.db[id], rows[j]))
      && db.Keys <= u.db.Keys
  {
    var ds := CsvLeads(rows);
    UploadKeepsOrStores(db, ds, 0, stamps, now);
    var u := UploadFrom(db, ds, 0, stamps, now);
    forall id | id in u.db
      ensures (id in db && u.db[id] == db[id]) || exists j :: 0 <= j < |rows| && CsvTagged(u.db[id], rows[j])
    {
      if !(id in db && u.db[id] == db[id]) {
        var j :| 0 <= j < |ds| && Stores(u.db[id], ds[j], stamps[j], now);
        StoredCsvTagged(rows[j], stamps[j], now);
      }
    }
  }

  /** A CSV row whose name cell is non-empty yields a valid lead carrying the
      row's name, the CSV source tag, status "new" and its rubric score. */
  lemma CsvLeadValidates(row: Row, now: string)
    requires CsvCells(row) && NameOk(CsvLeadData(row))
    ensures var r := ValidateLead(ScoredCsvLead(row), now);
      r.Ok? && Str(r.value.name) == CsvLeadData(row)["name"]
      && r.value.source == "csv_upload" && r.value.status == "new"
      && r.value.score == Rubric("new", CsvLeadData(row)["notes"].s)
      && !r.value.doNotCall
  {
    var c := CsvLeadData(row);
    assert c["email"].Str? || c["email"].Null?;
    assert c["phone"].Str? || c["phone"].Null?;
    assert c["company"].Str? || c["company"].Null?;
    ScoredFieldsValidate(c["name"], c["email"], c["phone"], c["company"], c["notes"].s,
                         Rubric("new", c["notes"].s), now);
  }

  /** Entries that all validate are all saved, and the count is their number. */
  lemma {:induction false} UploadSavesValid(db: map<string, Lead>, ds: seq<Dict>, k: nat, stamps: seq<string>, now: string)
    requires k <= |ds| == |stamps|
    requires forall j :: k <= j < |ds| ==> ValidateLead(ds[j], now).Ok?
    ensures UploadFrom(db, ds, k, stamps, now).result == Ok(|ds|)
    decreases |ds| - k
  {
    if k < |ds| {
      UploadSavesValid(SaveInto(db, ds[k], stamps[k], now).db, ds, k + 1, stamps, now);
    }
  }

  /** With every row carrying a non-empty name, the import succeeds and
      reports one lead per row. */
  lemma UploadCountsRows(db: map<string, Lead>, rows: seq<Row>, stamps: seq<string>, now: string)
    requires |stamps| == |rows|
    requires forall j :: 0 <= j < |rows| ==> CsvCells(rows[j]) && NameOk(CsvLeadData(rows[j]))
    ensures UploadFrom(db, CsvLeads(rows), 0, stamps, now).result == Ok(|rows|)
  {
    var ds := CsvLeads(rows);
    forall j | 0 <= j < |ds| ensures ValidateLead(ds[j], now).Ok? {
      CsvLeadValidates(rows[j], now);
    }
    UploadSavesValid(db, ds, 0, stamps, now);
  }

  /** An entry without a non-empty name, after entries that all validate,
      aborts the upload with a name error. */
  lemma {:induction false} UploadStopsAtNameless(db: map<string, Lead>, ds: seq<Dict>, k: nat, bad: nat,
                                                 stamps: seq<string>, now: string)
    requires k <= bad < |ds| == |stamps|
    requires forall j :: k <= j < bad ==> ValidateLead(ds[j], now).Ok?
    requires !NameOk(ds[bad])
    ensures UploadFrom(db, ds, k, stamps, now).result.Err?
    ensures "name" in UploadFrom(db, ds, k, stamps, now).result.error.fields
    decreases bad - k
  {
    if k == bad {
      UploadFailsAt(db, ds, k, stamps, now);
    } else {
      UploadSavesAt(db, ds, k, stamps, now);
      UploadStopsAtNameless(SaveInto(db, ds[k], stamps[k], now).db, ds, k + 1, bad, stamps, now);
    }
  }

  /** An entry that validates is saved and the upload goes on with the next. */
  lemma UploadSavesAt(db: map<string, Lead>, ds: seq<Dict>, k: nat, stamps: seq<string>, now: string)
    requires k < |ds| == |stamps| && ValidateLead(ds[k], now).Ok?
    ensures UploadFrom(db, ds, k, stamps, now) == UploadFrom(SaveInto(db, ds[k], stamps[k], now).db, ds, k + 1, stamps, now)
  {
  }

  /** An entry without a non-empty name ends the upload with a name error. */
  lemma UploadFailsAt(db: map<string, Lead>, ds: seq<Dict>, k: nat, stamps: seq<string>, now: string)
    requires k < |ds| == |stamps| && !NameOk(ds[k])
    ensures UploadFrom(db, ds, k, stamps, now).result.Err?
    ensures "name" in UploadFrom(db, ds, k, stamps, now).result.error.fields
  {
    SaveRejectsMissingName(db, ds[k], stamps[k], now);
  }

  /** A row with an empty name aborts the import with a name error; the rows
      before it have been saved, and the import does not report a count. */
  lemma UploadStopsAtEmptyName(db: map<string, Lead>, rows: seq<Row>, bad: nat, stamps: seq<string>, now: string)
    requires bad < |rows| == |stamps|
    requires forall j :: 0 <= j < bad ==> CsvCells(rows[j]) && NameOk(CsvLeadData(rows[j]))
    requires !NameOk(CsvLeadData(rows[bad]))
    ensures UploadFrom(db, CsvLeads(rows), 0, stamps, now).result.Err?
    ensures "name" in UploadFrom(db, CsvLeads(rows), 0, stamps, now).result.error.fields
  {
    var ds := CsvLeads(rows);
    forall j | 0 <= j < bad ensures ValidateLead(ds[j], now).Ok? {
      CsvLeadValidates(rows[j], now);
    }
    ScoringKeepsName(rows[bad]);
    UploadStopsAtNameless(db, ds, 0, bad, stamps, now);
  }

  /** Scoring a row's lead leaves its name as the row gave it. */
  lemma ScoringKeepsName(row: Row)
    ensures NameOk(ScoredCsvLead(row)) <==> NameOk(CsvLeadData(row))
  {
    assert ScoredCsvLead(row)["name"] == CsvLeadData(row)["name"];
  }

  // ---------------------------------------------------------------------------
  // The in-memory lead manager
  // ---------------------------------------------------------------------------

  class LeadManager {
    var leadsDb: map<string, Lead>
    var historyDb: map<string, seq<ConversationEntry>>

    constructor ()
      ensures leadsDb == map[] && historyDb == map[]
    {
      leadsDb := map[];
      historyDb := map[];
    }

    /** get_lead */
    function GetLead(id: string): (r: Option<Lead>)
      reads this
      ensures r.Some? <==> id in leadsDb
      ensures r.Some? ==> r.value == leadsDb[id]
    {
      if id in leadsDb then Some(leadsDb[id]) else None
    }

    /** save_lead: `stamp` is the timestamp id used when the lead has none,
        `now` the update timestamp. */
    method SaveLead(data: Dict, stamp: string, now: string) returns (r: Result<string, ValidationError>)
      modifies this
      ensures Saved(r, leadsDb) == SaveInto(old(leadsDb), data, stamp, now)
      ensures r.Ok? ==> GetLead(r.value) == Some(Stamped(ValidateLead(data, now).value, stamp, now))
      ensures forall k :: (r.Err? || k != r.value) ==> GetLead(k) == old(GetLead(k))
      ensures historyDb == old(historyDb)
    {
      var lead := ValidateLead(data, now);
      if lead.Err? {
        return Err(lead.error);
      }
      var id := AssignedId(lead.value, stamp);
      leadsDb := leadsDb[id := Stamped(lead.value, stamp, now)];
      r := Ok(id);
    }

    /** save_conversation */
    method SaveConversation(leadId: string, role: string, message: string, meta: Option<Dict>, now: string)
      modifies this
      ensures historyDb == AppendTurn(old(historyDb), Turn(leadId, role, message, meta, now))
      ensures historyDb[leadId] == (if leadId in old(historyDb) then old(historyDb)[leadId] else []) + [Turn(leadId, role, message, meta, now)]
      ensures forall k :: k in old(historyDb) && k != leadId ==> historyDb[k] == old(historyDb)[k]
      ensures leadsDb == old(leadsDb)
    {
      var entry := Turn(leadId, role, message, meta, now);
      var turns := if leadId in historyDb then historyDb[leadId] else [];
      historyDb := historyDb[leadId := turns + [entry]];
    }

    /** process_csv_upload over parsed rows; `stamps[k]` is the id generated for row `k`. */
    method ProcessCsvUpload(rows: seq<Row>, stamps: seq<string>, now: string) returns (r: Result<nat, ValidationError>)
      requires |stamps| == |rows|
      modifies this
      ensures Upload(r, leadsDb) == UploadFrom(old(leadsDb), CsvLeads(rows), 0, stamps, now)
      ensures historyDb == old(historyDb)
    {
      var count: nat := 0;
      while count < |rows|
        invariant count <= |rows|
        invariant UploadFrom(old(leadsDb), CsvLeads(rows), 0, stamps, now) == UploadFrom(leadsDb, CsvLeads(rows), count, stamps, now)
        invariant historyDb == old(historyDb)
      {
        var leadData := CsvLeadData(rows[count]);
        var score := CalculateLeadScore(leadData);
        leadData := leadData["score" := Int(score.value)];
        assert leadData == CsvLeads(rows)[count];
        var saved := SaveLead(leadData, stamps[count], now);
        if saved.Err? {
          return Err(saved.error);
        }
        count := count + 1;
      }
      r := Ok(count);
    }
  }
}
