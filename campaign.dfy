/** The outbound campaign dialer (core/campaign_manager.py): a lead queue, a
    cursor, a run flag and four counters.  The random call outcome, the call
    id the telephony service returns and the moment `stop_campaign` arrives
    are inputs; the calls placed and the activity-log writes are recorded in
    ghost traces. */
module Campaign {
  import opened Base
  import opened Text
  import Leads
  import Crm
  import CrmApp

  // ---------------------------------------------------------------------------
  // Counters and outcomes
  // ---------------------------------------------------------------------------

  /** `stats`: total, dialed, connected, appointments. */
  datatype Stats = Stats(total: int, dialed: int, connected: int, appointments: int)

  /** The counter chain every reachable state keeps. */
  predicate Ordered(s: Stats) {
    0 <= s.appointments <= s.connected <= s.dialed
  }

  /** The four simulated call outcomes. */
  datatype Outcome = Voicemail | NotInterested | Callback | Appointment

  function Label(o: Outcome): string {
    match o
    case Voicemail => "Voicemail"
    case NotInterested => "Connected - Not Interested"
    case Callback => "Connected - Callback"
    case Appointment => "APPOINTMENT BOOKED"
  }

  function CallNotes(o: Outcome): string {
    match o
    case Voicemail => "Left voicemail about refinance rates."
    case NotInterested => "Client happy with current rate."
    case Callback => "Requested callback next Tuesday."
    case Appointment => "Scheduled consultation for refinance!"
  }

  /** How the dialer reads an outcome label. */
  datatype Kind = Booked | Contacted | NotContacted

  /** The dialer's test on the label: "APPOINTMENT" first, then "Connected". */
  function Classify(text: string): (k: Kind)
    ensures k == Booked <==> Contains(text, "APPOINTMENT")
    ensures k == Contacted <==> !Contains(text, "APPOINTMENT") && Contains(text, "Connected")
    ensures k == NotContacted <==> !Contains(text, "APPOINTMENT") && !Contains(text, "Connected")
  {
    if Contains(text, "APPOINTMENT") then Booked
    else if Contains(text, "Connected") then Contacted
    else NotContacted
  }

  function StatusText(k: Kind): string {
    match k
    case Booked => "Qualified - Appointment"
    case Contacted => "Working - Contacted"
    case NotContacted => "Open - Not Contacted"
  }

  /** The three kinds are written with three different statuses. */
  lemma StatusTextInjective(a: Kind, b: Kind)
    requires StatusText(a) == StatusText(b)
    ensures a == b
  {
    assert StatusText(Booked)[0] == 'Q' && StatusText(Contacted)[0] == 'W' && StatusText(NotContacted)[0] == 'O';
  }

  /** What each outcome is meant to count as: only a booked appointment is
      an appointment, both connected outcomes are contacts, voicemail is
      neither. */
  function KindOf(o: Outcome): Kind {
    match o
    case Appointment => Booked
    case NotInterested => Contacted
    case Callback => Contacted
    case Voicemail => NotContacted
  }

  /** The dialer's test on the label gives each outcome its intended kind. */
  lemma ClassifyOutcomes(o: Outcome)
    ensures Classify(Label(o)) == KindOf(o)
  {
    match o
    case Appointment => ContainsPrefix(Label(Appointment), "APPOINTMENT");
    case NotInterested => ClassifyConnected(Label(NotInterested));
    case Callback => ClassifyConnected(Label(Callback));
    case Voicemail => ClassifyVoicemail();
  }

  /** A label that starts with "Connected" and has no capital A is a contact. */
  lemma ClassifyConnected(text: string)
    requires |text| >= 9 && text[..9] == "Connected" && 'A' !in text
    ensures Classify(text) == Contacted
  {
    NotContainsMissing(text, "APPOINTMENT", 0);
    ContainsPrefix(text, "Connected");
  }

  lemma ClassifyVoicemail()
    ensures Classify(Label(Voicemail)) == NotContacted
  {
    var text := Label(Voicemail);
    assert 'A' !in text && 'C' !in text;
    NotContainsMissing(text, "APPOINTMENT", 0);
    NotContainsMissing(text, "Connected", 0);
  }

  /** The final status logged for each outcome. */
  lemma OutcomeStatuses()
    ensures StatusText(Classify(Label(Appointment))) == "Qualified - Appointment"
    ensures StatusText(Classify(Label(NotInterested))) == "Working - Contacted"
    ensures StatusText(Classify(Label(Callback))) == "Working - Contacted"
    ensures StatusText(Classify(Label(Voicemail))) == "Open - Not Contacted"
  {
    ClassifyOutcomes(Appointment);
    ClassifyOutcomes(NotInterested);
    ClassifyOutcomes(Callback);
    ClassifyOutcomes(Voicemail);
  }

  /** The counter update after a call: an appointment adds to appointments
      and connected, a contact to connected only. */
  function Tally(s: Stats, k: Kind): (t: Stats)
    ensures t.total == s.total && t.dialed == s.dialed
    ensures t.appointments == s.appointments + (if k == Booked then 1 else 0)
    ensures t.connected == s.connected + (if k == NotContacted then 0 else 1)
  {
    match k
    case Booked => s.(appointments := s.appointments + 1, connected := s.connected + 1)
    case Contacted => s.(connected := s.connected + 1)
    case NotContacted => s
  }

  // ---------------------------------------------------------------------------
  // One pass of the dialer over one lead
  // ---------------------------------------------------------------------------

  /** What one pass of the loop did with its lead: skipped it, dialed it and
      died in the first log write, or dialed it to an outcome. */
  datatype Pass = Skipped | Crashed | Called(outcome: Outcome)

  /** The lead keys the loop reads with `lead[...]`. */
  predicate Queued(lead: Dict) {
    "name" in lead && "phone" in lead && "company" in lead
  }

  /** `lead.get('do_not_call') or lead.get('DoNotCall')` */
  predicate DoNotCall(lead: Dict) {
    Truthy(Get(lead, "do_not_call", Null)) || Truthy(Get(lead, "DoNotCall", Null))
  }

  /** log_demo_activity raises on a name that is not a string or has no words. */
  predicate NameCrashes(name: Value) {
    !(name.Str? && Words(name.s) != [])
  }

  /** A name holding a non-whitespace character is logged without raising. */
  lemma NameWithLetterLogs(s: string, i: nat)
    requires i < |s| && !IsSpace(s[i])
    ensures !NameCrashes(Str(s))
  {
    WordsEmptyIff(s);
  }

  function PassFor(lead: Dict, o: Outcome): (p: Pass)
    requires Queued(lead)
    ensures p == Skipped <==> DoNotCall(lead)
    ensures p == Crashed <==> !DoNotCall(lead) && NameCrashes(lead["name"])
    ensures p.Called? ==> p.outcome == o
  {
    if DoNotCall(lead) then Skipped
    else if NameCrashes(lead["name"]) then Crashed
    else Called(o)
  }

  /** The counters after one pass. */
  function Apply(s: Stats, p: Pass): (t: Stats)
    ensures t.total == s.total
    ensures t.dialed == s.dialed + (if p == Skipped then 0 else 1)
  {
    match p
    case Skipped => s
    case Crashed => s.(dialed := s.dialed + 1)
    case Called(o) => Tally(s.(dialed := s.dialed + 1), KindOf(o))
  }

  /** Which of the two call scripts the dialer speaks. */
  datatype Script = BrokerScript | DefaultScript

  /** The broker script for a lead of type "broker", the default one otherwise. */
  function ScriptFor(lead: Dict): (s: Script)
    ensures s == BrokerScript <==> "type" in lead && lead["type"] == Str("broker")
  {
    if Get(lead, "type", Null) == Str("broker") then BrokerScript else DefaultScript
  }

  /** A call the dialer places: the number, and the name and script of the greeting. */
  datatype CallPlaced = CallPlaced(phone: Value, name: Value, script: Script)

  const BrokerPitch := ", this is Assistant calling from the local office. I'm reaching out because we've"
    + " launched some new programs that could be a huge asset for your agents' listings right now."
  const DefaultPitch := ", this is Assistant, an AI specialist. I'm calling to follow up on your interest."

  /** The greeting spoken on a call; it addresses the lead by name, right
      after the salutation. */
  function Greeting(c: CallPlaced): (g: string)
    ensures |g| > |Show(c.name)| + 6
    ensures c.script == BrokerScript ==> g[..3] == "Hi " && OccursAt(g, Show(c.name), 3)
    ensures c.script == DefaultScript ==> g[..6] == "Hello " && OccursAt(g, Show(c.name), 6)
  {
    match c.script
    case BrokerScript => "Hi " + Show(c.name) + BrokerPitch
    case DefaultScript => "Hello " + Show(c.name) + DefaultPitch
  }

  /** `/api/recordings/demo_<name with spaces as underscores>.mp3` */
  function RecordingUrl(name: string): (url: string)
    ensures |url| == |name| + 25
    ensures forall i :: 0 <= i < |url| ==> url[i] != ' '
  {
    "/api/recordings/demo_" + ReplaceChar(name, ' ', '_') + ".mp3"
  }

  /** Two names that differ other than by swapping spaces and underscores
      get different recording links. */
  lemma RecordingUrlSeparates(a: string, b: string)
    requires RecordingUrl(a) == RecordingUrl(b)
    ensures ReplaceChar(a, ' ', '_') == ReplaceChar(b, ' ', '_')
  {
    var ra := ReplaceChar(a, ' ', '_');
    var rb := ReplaceChar(b, ' ', '_');
    assert RecordingUrl(a)[21..21 + |ra|] == ra;
    assert RecordingUrl(b)[21..21 + |rb|] == rb;
  }

  /** `call_id or 'SIMULATED'` */
  function CallIdText(callId: Option<string>): string {
    if Present(callId) then callId.value else "SIMULATED"
  }

  /** One log_demo_activity call that returned: the "Dialing..." entry with
      the call id, or the entry with the final status of an outcome.  The
      name is a string, since a name that is not raises inside the call. */
  datatype LogWrite =
    | Dialing(name: string, company: Value, callId: Option<string>)
    | Settled(name: string, company: Value, outcome: Outcome)

  /** The status argument of the call. */
  function WriteStatus(w: LogWrite): string {
    match w
    case Dialing(_, _, _) => "Dialing..."
    case Settled(_, _, o) => StatusText(Classify(Label(o)))
  }

  /** The notes argument of the call. */
  function WriteNotes(w: LogWrite): string {
    match w
    case Dialing(_, _, id) => "Vonage Call UUID: " + CallIdText(id)
    case Settled(_, _, o) => CallNotes(o)
  }

  /** The recording argument of the call: only the final entry has one. */
  function WriteRecording(w: LogWrite): Option<string> {
    match w
    case Dialing(_, _, _) => None
    case Settled(name, _, _) => Some(RecordingUrl(name))
  }

  /** The calls one pass places. */
  function CallsFor(lead: Dict, p: Pass): (c: seq<CallPlaced>)
    requires Queued(lead)
    ensures p == Skipped <==> c == []
    ensures c != [] ==> c == [CallPlaced(lead["phone"], lead["name"], ScriptFor(lead))]
  {
    if p == Skipped then [] else [CallPlaced(lead["phone"], lead["name"], ScriptFor(lead))]
  }

  /** The log writes one pass makes: a dialed lead gets two entries for its
      own name and company, "Dialing..." with the call id and then the final
      status with the recording link; a skipped lead or a name that raises
      gets none. */
  function WritesFor(lead: Dict, p: Pass, callId: Option<string>): (w: seq<LogWrite>)
    requires Queued(lead) && (p.Called? ==> !NameCrashes(lead["name"]))
    ensures (p.Called? <==> |w| == 2) && (!p.Called? <==> w == [])
    ensures p.Called? ==>
      Str(w[0].name) == Str(w[1].name) == lead["name"] && w[0].company == w[1].company == lead["company"]
      && WriteStatus(w[0]) == "Dialing..." && WriteNotes(w[0]) == "Vonage Call UUID: " + CallIdText(callId)
      && WriteRecording(w[0]).None?
      && WriteStatus(w[1]) == StatusText(Classify(Label(p.outcome))) && WriteNotes(w[1]) == CallNotes(p.outcome)
      && WriteRecording(w[1]) == Some(RecordingUrl(lead["name"].s))
  {
    if !p.Called? then []
    else [Dialing(lead["name"].s, lead["company"], callId), Settled(lead["name"].s, lead["company"], p.outcome)]
  }

  // ---------------------------------------------------------------------------
  // The counters over a run, against independent counts
  // ---------------------------------------------------------------------------

  /** The counters after a sequence of passes. */
  function Run(s: Stats, ps: seq<Pass>): (t: Stats)
    ensures t.total == s.total && s.dialed <= t.dialed <= s.dialed + |ps|
    decreases |ps|
  {
    if ps == [] then s else Apply(Run(s, ps[..|ps| - 1]), ps[|ps| - 1])
  }

  function Skips(ps: seq<Pass>): (n: nat)
    ensures n <= |ps|
  {
    if ps == [] then 0 else Skips(ps[..|ps| - 1]) + (if ps[|ps| - 1] == Skipped then 1 else 0)
  }

  /** Passes whose outcome is a live conversation (anything but voicemail). */
  function Connects(ps: seq<Pass>): nat {
    if ps == [] then 0
    else Connects(ps[..|ps| - 1]) + (if ps[|ps| - 1].Called? && ps[|ps| - 1].outcome != Voicemail then 1 else 0)
  }

  function Bookings(ps: seq<Pass>): nat {
    if ps == [] then 0 else Bookings(ps[..|ps| - 1]) + (if ps[|ps| - 1] == Called(Appointment) then 1 else 0)
  }

  /** Each counter moves by the number of passes of its kind: every pass
      that was not skipped is a dial, every conversation a connect, every
      booking an appointment; the total never changes. */
  lemma {:induction false} RunCounts(s: Stats, ps: seq<Pass>)
    ensures Run(s, ps) == Stats(s.total, s.dialed + |ps| - Skips(ps), s.connected + Connects(ps),
                                s.appointments + Bookings(ps))
    decreases |ps|
  {
    if ps != [] {
      RunCounts(s, ps[..|ps| - 1]);
    }
  }

  /** Counting never inverts the chain: appointments are connects and
      connects are dials. */
  lemma {:induction false} CountsOrdered(ps: seq<Pass>)
    ensures Bookings(ps) <= Connects(ps) <= |ps| - Skips(ps)
    decreases |ps|
  {
    if ps != [] {
      CountsOrdered(ps[..|ps| - 1]);
    }
  }

  /** A run keeps appointments <= connected <= dialed, and adds at most one
      dial per pass. */
  lemma RunKeepsOrder(s: Stats, ps: seq<Pass>)
    requires Ordered(s)
    ensures Ordered(Run(s, ps)) && Run(s, ps).dialed <= s.dialed + |ps|
  {
    RunCounts(s, ps);
    CountsOrdered(ps);
  }

  /** The number of do-not-call leads among `q`. */
  function DoNotCallCount(q: seq<Dict>): nat {
    if q == [] then 0 else DoNotCallCount(q[..|q| - 1]) + (if DoNotCall(q[|q| - 1]) then 1 else 0)
  }

  /** The skipped passes are exactly the do-not-call leads they were made on. */
  lemma {:induction false} SkipsAreDoNotCall(q: seq<Dict>, ps: seq<Pass>)
    requires |ps| == |q| && forall i :: 0 <= i < |q| ==> Queued(q[i])
    requires forall i :: 0 <= i < |q| ==> (ps[i] == Skipped <==> DoNotCall(q[i]))
    ensures Skips(ps) == DoNotCallCount(q)
    decreases |q|
  {
    if q != [] {
      SkipsAreDoNotCall(q[..|q| - 1], ps[..|ps| - 1]);
    }
  }

  // ---------------------------------------------------------------------------
  // Loading a campaign
  // ---------------------------------------------------------------------------

  /** Why a load stopped: `" " in None` (a short CSV row), an address with a
      single space (`split(" ")[-3]`), or a CRM record the lead model rejects. */
  datatype LoadError = TypeError | IndexError | Invalid(error: ValidationError)

  const AddressKey := "Subject Property: Address: 1"

  /** `row.get(k1) or row.get(k2, default)` */
  function Either(row: Dict, k1: string, k2: string, default: Value): (v: Value)
    ensures Truthy(Get(row, k1, Null)) ==> v == row[k1]
    ensures !Truthy(Get(row, k1, Null)) ==> v == Get(row, k2, default)
  {
    Or(Get(row, k1, Null), Get(row, k2, default))
  }

  /** The city: the third space-separated piece from the end of the address
      when it has a space, the `City` column otherwise. */
  function CityField(row: Dict): (r: Result<Value, LoadError>)
    ensures var a := Get(row, AddressKey, Str(""));
      (r == Err(TypeError) <==> !a.Str?)
      && (r == Err(IndexError) <==> a.Str? && ' ' in a.s && |SplitOn(a.s, ' ')| < 3)
      && (a.Str? && ' ' !in a.s ==> r == Ok(Get(row, "City", Str("Unknown"))))
      && (a.Str? && |SplitOn(a.s, ' ')| >= 3 ==> r == Ok(Str(SplitOn(a.s, ' ')[|SplitOn(a.s, ' ')| - 3])))
  {
    var a := Get(row, AddressKey, Str(""));
    if !a.Str? then Err(TypeError)
    else if ' ' in a.s then
      var pieces := SplitOn(a.s, ' ');
      if |pieces| < 3 then Err(IndexError) else Ok(Str(pieces[|pieces| - 3]))
    else Ok(Get(row, "City", Str("Unknown")))
  }

  /** The city lookup fails on an address string exactly when it holds one space. */
  lemma CityFailsOnOneSpace(row: Dict)
    requires Get(row, AddressKey, Str("")).Str?
    ensures CityField(row) == Err(IndexError) <==> Count(Get(row, AddressKey, Str("")).s, ' ') == 1
  {
    var a := Get(row, AddressKey, Str("")).s;
    SplitOnLength(a, ' ');
    if ' ' in a {
      CountPositive(a, ' ');
    } else {
      CountNone(a, ' ');
    }
  }

  const CsvLeadKeys := {"name", "email", "phone", "city", "state", "loan_amount", "interest_rate", "company"}

  /** The queue entry load_campaign_from_csv builds from a row, or the error the row raises. */
  function NormalizeCsvRow(row: Dict): (r: Result<Dict, LoadError>)
    ensures r.Err? <==> CityField(row).Err?
    ensures r.Err? ==> r.error == CityField(row).error
    ensures r.Ok? ==> r.value.Keys == CsvLeadKeys && Queued(r.value)
    ensures r.Ok? ==> r.value["company"] == Str("General Services")
    ensures r.Ok? ==> r.value["name"] == Either(row, "Primary Borrower", "Name", Str("Unknown"))
    ensures r.Ok? ==> r.value["phone"] == Either(row, "Phone", "Mobile", Str(""))
    ensures r.Ok? ==> r.value["city"] == CityField(row).value
  {
    match CityField(row)
    case Err(e) => Err(e)
    case Ok(city) =>
      Ok(CsvEntry(Either(row, "Primary Borrower", "Name", Str("Unknown")),
                  Either(row, "Primary Borrower: Email", "Email", Str("")),
                  Either(row, "Phone", "Mobile", Str("")),
                  city,
                  Either(row, "Subject Property: Address: State", "State", Str("WA")),
                  Either(row, "Total Loan Amount", "Amount", Str("$0")),
                  Get(row, "Interest Rate", Str("0.0%"))))
  }

  /** A CSV queue entry, given its cells: the eight keys, the company fixed,
      and no do-not-call flag under either spelling. */
  function CsvEntry(name: Value, email: Value, phone: Value, city: Value, state: Value, loanAmount: Value,
                    interestRate: Value): (d: Dict)
    ensures d.Keys == CsvLeadKeys && Queued(d)
    ensures d["name"] == name && d["phone"] == phone && d["city"] == city
    ensures d["company"] == Str("General Services")
    ensures "do_not_call" !in d && "DoNotCall" !in d
  {
    map["name" := name, "email" := email, "phone" := phone, "city" := city, "state" := state,
        "loan_amount" := loanAmount, "interest_rate" := interestRate, "company" := Str("General Services")]
  }

  /** A row with neither borrower nor name column is queued as "Unknown". */
  lemma CsvNameDefaultsToUnknown(row: Dict)
    requires "Primary Borrower" !in row && "Name" !in row && AddressKey !in row
    ensures NormalizeCsvRow(row).Ok? && NormalizeCsvRow(row).value["name"] == Str("Unknown")
  {
  }

  /** The queue entry load_campaign_from_salesforce builds from a CRM record:
      the synced lead model, dumped to a dictionary. */
  function ConvertCrmRecord(rec: Dict, now: string): (r: Result<Dict, LoadError>)
    ensures r.Ok? <==> CrmApp.SyncLeadToModel(rec, now).Ok?
    ensures r.Ok? ==> r.value == Leads.ToDict(CrmApp.SyncLeadToModel(rec, now).value)
    ensures r.Err? ==> r.error == Invalid(CrmApp.SyncLeadToModel(rec, now).error)
  {
    match CrmApp.SyncLeadToModel(rec, now)
    case Ok(lead) => Ok(Leads.ToDict(lead))
    case Err(e) => Err(Invalid(e))
  }

  /** A synced CRM lead has the keys the dialer reads and is never marked do-not-call. */
  lemma CrmLeadQueued(rec: Dict, now: string)
    requires ConvertCrmRecord(rec, now).Ok?
    ensures Queued(ConvertCrmRecord(rec, now).value) && !DoNotCall(ConvertCrmRecord(rec, now).value)
  {
    var lead := CrmApp.SyncLeadToModel(rec, now).value;
    DumpQueued(lead);
  }

  /** A dumped lead model has the keys the dialer reads; its do-not-call
      flag is the model's. */
  lemma DumpQueued(lead: Leads.Lead)
    ensures Queued(Leads.ToDict(lead))
    ensures DoNotCall(Leads.ToDict(lead)) <==> lead.doNotCall
  {
    var d := Leads.ToDict(lead);
    assert "DoNotCall" !in d;
  }

  /** What a load leaves in the queue, and the error that stopped it. */
  datatype Loaded = Loaded(leads: seq<Dict>, error: Option<LoadError>)

  /** Converting rows front to back, stopping at the first that raises. */
  function LoadAll(rows: seq<Dict>, convert: Dict -> Result<Dict, LoadError>): (l: Loaded)
    ensures |l.leads| <= |rows|
    ensures l.error.None? <==> forall i :: 0 <= i < |rows| ==> convert(rows[i]).Ok?
    ensures l.error.None? ==> |l.leads| == |rows|
    ensures l.error.Some? ==> |l.leads| < |rows| && convert(rows[|l.leads|]) == Err(l.error.value)
    ensures forall i :: 0 <= i < |l.leads| ==> convert(rows[i]) == Ok(l.leads[i])
    decreases |rows|
  {
    if rows == [] then Loaded([], None)
    else match convert(rows[0])
      case Err(e) => Loaded([], Some(e))
      case Ok(lead) =>
        var rest := LoadAll(rows[1..], convert);
        assert forall i :: 1 <= i < |rows| ==> rows[i] == rows[1..][i - 1];
        Loaded([lead] + rest.leads, rest.error)
  }

  /** A load that has converted `rows[..i]` without error and fails at `rows[i]`
      stops there with exactly those leads. */
  lemma LoadAllStopsAt(rows: seq<Dict>, convert: Dict -> Result<Dict, LoadError>, leads: seq<Dict>, e: LoadError)
    requires |leads| < |rows| && convert(rows[|leads|]) == Err(e)
    requires forall j :: 0 <= j < |leads| ==> convert(rows[j]) == Ok(leads[j])
    ensures LoadAll(rows, convert) == Loaded(leads, Some(e))
  {
    var l := LoadAll(rows, convert);
    assert l.error.Some?;
    assert |leads| <= |l.leads| <= |leads|;
    SameConversions(rows, convert, l.leads, leads);
  }

  /** A load that converts every row keeps all of them, in order. */
  lemma LoadAllComplete(rows: seq<Dict>, convert: Dict -> Result<Dict, LoadError>, leads: seq<Dict>)
    requires |leads| == |rows|
    requires forall j :: 0 <= j < |leads| ==> convert(rows[j]) == Ok(leads[j])
    ensures LoadAll(rows, convert) == Loaded(leads, None)
  {
    var l := LoadAll(rows, convert);
    assert l.error.None?;
    SameConversions(rows, convert, l.leads, leads);
  }

  /** Two lists of leads that are the conversions of the same rows are equal. */
  lemma SameConversions(rows: seq<Dict>, convert: Dict -> Result<Dict, LoadError>, a: seq<Dict>, b: seq<Dict>)
    requires |a| == |b| <= |rows|
    requires forall j :: 0 <= j < |a| ==> convert(rows[j]) == Ok(a[j])
    requires forall j :: 0 <= j < |b| ==> convert(rows[j]) == Ok(b[j])
    ensures a == b
  {
    forall j | 0 <= j < |a| ensures a[j] == b[j] {
      assert convert(rows[j]) == Ok(a[j]);
    }
  }

  /** The conversion loop of both loads: rows are converted front to back
      and the first that raises ends the loop with its error. */
  method ConvertRows(rows: seq<Dict>, convert: Dict -> Result<Dict, LoadError>)
    returns (leads: seq<Dict>, error: Option<LoadError>)
    requires forall i :: 0 <= i < |rows| && convert(rows[i]).Ok? ==> Queued(convert(rows[i]).value)
    ensures LoadAll(rows, convert) == Loaded(leads, error)
    ensures AllQueued(leads)
  {
    leads := [];
    var i := 0;
    while i < |rows|
      invariant 0 <= i <= |rows| && |leads| == i
      invariant forall j :: 0 <= j < i ==> convert(rows[j]) == Ok(leads[j])
      invariant AllQueued(leads)
    {
      var c := convert(rows[i]);
      if c.Err? {
        LoadAllStopsAt(rows, convert, leads, c.error);
        return leads, Some(c.error);
      }
      leads := leads + [c.value];
      i := i + 1;
    }
    LoadAllComplete(rows, convert, leads);
    error := None;
  }

  // ---------------------------------------------------------------------------
  // The manager's invariant
  // ---------------------------------------------------------------------------

  predicate AllQueued(q: seq<Dict>) {
    forall i :: 0 <= i < |q| ==> Queued(q[i])
  }

  /** The queue `q` with cursor `cursor`: one pass per lead before the
      cursor, and the counters those passes give from `base`. */
  ghost predicate Consistent(q: seq<Dict>, cursor: int, ps: seq<Pass>, base: Stats, s: Stats) {
    0 <= cursor <= |q| && AllQueued(q) && |ps| == cursor
    && Ordered(base) && s == Run(base, ps) && Ordered(s)
  }

  lemma RunSnoc(s: Stats, ps: seq<Pass>, p: Pass)
    ensures Run(s, ps + [p]) == Apply(Run(s, ps), p)
  {
    assert (ps + [p])[..|ps|] == ps;
  }

  /** A freshly loaded queue with the cursor at 0 is consistent with any ordered counters. */
  lemma FreshConsistent(q: seq<Dict>, s: Stats)
    requires AllQueued(q) && Ordered(s)
    ensures Consistent(q, 0, [], s, s)
  {
  }

  /** One pass keeps the state consistent. */
  lemma StepConsistent(q: seq<Dict>, cursor: int, ps: seq<Pass>, base: Stats, s: Stats, o: Outcome)
    requires Consistent(q, cursor, ps, base, s) && cursor < |q|
    ensures var p := PassFor(q[cursor], o); Consistent(q, cursor + 1, ps + [p], base, Apply(s, p))
  {
    var p := PassFor(q[cursor], o);
    RunSnoc(base, ps, p);
    RunKeepsOrder(base, ps + [p]);
  }

  /** Counted from a fresh load, every dial is a lead passed: the chain
      appointments <= connected <= dialed <= cursor <= queue length. */
  lemma DialedWithinCursor(q: seq<Dict>, cursor: int, ps: seq<Pass>, base: Stats, s: Stats)
    requires Consistent(q, cursor, ps, base, s) && base.dialed == 0
    ensures s.appointments <= s.connected <= s.dialed <= cursor <= |q|
    ensures s.dialed == cursor - Skips(ps)
  {
    RunCounts(base, ps);
  }

  // ---------------------------------------------------------------------------
  // The manager
  // ---------------------------------------------------------------------------

  class CampaignManager {
    /** The CRM client the manager loads from (`sf_app.sf`). */
    const sf: Crm.SalesforceClient
    var activeCampaign: seq<Dict>
    var isRunning: bool
    var currentLeadIndex: int
    var stats: Stats
    /** The counters when the cursor was last put back to 0. */
    ghost var baseline: Stats
    /** What the dialer did with each lead before the cursor, in queue order. */
    ghost var processed: seq<Pass>
    /** Every call placed and every log write, oldest first. */
    ghost var calls: seq<CallPlaced>
    ghost var activity: seq<LogWrite>

    ghost predicate Valid()
      reads this
    {
      Consistent(activeCampaign, currentLeadIndex, processed, baseline, stats)
    }

    constructor (client: Crm.SalesforceClient)
      ensures Valid() && sf == client
      ensures activeCampaign == [] && !isRunning && currentLeadIndex == 0 && stats == Stats(0, 0, 0, 0)
      ensures calls == [] && activity == []
    {
      sf := client;
      activeCampaign := [];
      isRunning := false;
      currentLeadIndex := 0;
      stats := Stats(0, 0, 0, 0);
      baseline := Stats(0, 0, 0, 0);
      processed := [];
      calls := [];
      activity := [];
    }

    /** The shared body of both loads: empty the queue, rewind the cursor,
        convert the rows in order; reset the counters only when every row converts. */
    method Refill(rows: seq<Dict>, convert: Dict -> Result<Dict, LoadError>) returns (r: Result<nat, LoadError>)
      requires Ordered(stats)
      requires forall i :: 0 <= i < |rows| && convert(rows[i]).Ok? ==> Queued(convert(rows[i]).value)
      modifies this
      ensures Valid()
      ensures var l := LoadAll(rows, convert);
        activeCampaign == l.leads && currentLeadIndex == 0 && processed == []
        && (r.Ok? <==> l.error.None?)
        && (r.Ok? ==> r.value == |activeCampaign| && stats == Stats(|activeCampaign|, 0, 0, 0))
        && (r.Err? ==> r.error == l.error.value && stats == old(stats))
      ensures isRunning == old(isRunning) && calls == old(calls) && activity == old(activity)
    {
      // No other task runs while the rows convert, so the queue is built
      // aside and stored when the conversion ends or raises.
      var leads, error := ConvertRows(rows, convert);
      activeCampaign := leads;
      currentLeadIndex := 0;
      processed := [];
      if error.None? {
        stats := Stats(|leads|, 0, 0, 0);
        r := Ok(|leads|);
      } else {
        r := Err(error.value);
      }
      baseline := stats;
      FreshConsistent(activeCampaign, stats);
    }

    /** load_campaign_from_csv over the rows the CSV reader produced. */
    method LoadFromCsv(rows: seq<Dict>) returns (r: Result<nat, LoadError>)
      requires Valid()
      modifies this
      ensures Valid()
      ensures var l := LoadAll(rows, NormalizeCsvRow);
        activeCampaign == l.leads && currentLeadIndex == 0
        && (r.Ok? <==> l.error.None?)
        && (r.Ok? ==> r.value == |activeCampaign| && stats == Stats(|activeCampaign|, 0, 0, 0))
        && (r.Err? ==> r.error == l.error.value && stats == old(stats))
      ensures forall i :: 0 <= i < |activeCampaign| ==> activeCampaign[i]["company"] == Str("General Services")
      ensures isRunning == old(isRunning) && calls == old(calls) && activity == old(activity)
    {
      r := Refill(rows, NormalizeCsvRow);
    }

    /** load_campaign_from_salesforce; `records` is what the campaign query
        returned (`None` when it raised) and `now` the sync timestamp. */
    method LoadFromCrm(campaignId: string, records: Option<seq<Dict>>, now: string) returns (r: Result<nat, LoadError>)
      requires Valid()
      modifies this
      ensures Valid()
      ensures var l := LoadAll(sf.GetLeadsForCampaign(campaignId, records), rec => ConvertCrmRecord(rec, now));
        activeCampaign == l.leads && currentLeadIndex == 0
        && (r.Ok? <==> l.error.None?)
        && (r.Ok? ==> r.value == |activeCampaign| && stats == Stats(|activeCampaign|, 0, 0, 0))
        && (r.Err? ==> r.error == l.error.value && stats == old(stats))
      ensures isRunning == old(isRunning) && calls == old(calls) && activity == old(activity)
    {
      var rows := sf.GetLeadsForCampaign(campaignId, records);
      forall i | 0 <= i < |rows| && ConvertCrmRecord(rows[i], now).Ok?
        ensures Queued(ConvertCrmRecord(rows[i], now).value)
      {
        CrmLeadQueued(rows[i], now);
      }
      r := Refill(rows, rec => ConvertCrmRecord(rec, now));
    }

    /** start_campaign: returns whether a dialer task is spawned. */
    method Start() returns (spawned: bool)
      modifies this
      ensures spawned <==> !old(isRunning)
      ensures isRunning
      ensures activeCampaign == old(activeCampaign) && currentLeadIndex == old(currentLeadIndex) && stats == old(stats)
      ensures baseline == old(baseline) && processed == old(processed)
      ensures calls == old(calls) && activity == old(activity)
    {
      if isRunning {
        return false;
      }
      isRunning := true;
      spawned := true;
    }

    /** stop_campaign */
    method Stop()
      modifies this
      ensures !isRunning
      ensures activeCampaign == old(activeCampaign) && currentLeadIndex == old(currentLeadIndex) && stats == old(stats)
      ensures baseline == old(baseline) && processed == old(processed)
      ensures calls == old(calls) && activity == old(activity)
    {
      isRunning := false;
    }

    /** One pass of the `_run_dialer` loop on the lead at the cursor; returns
        whether the pass raised (and so ended the dialer task). */
    method Step(outcome: Outcome, callId: Option<string>) returns (crashed: bool)
      requires Valid() && currentLeadIndex < |activeCampaign|
      modifies this
      ensures Valid()
      ensures activeCampaign == old(activeCampaign) && isRunning == old(isRunning) && baseline == old(baseline)
      ensures currentLeadIndex == old(currentLeadIndex) + 1
      ensures var lead := old(activeCampaign[currentLeadIndex]); var p := PassFor(lead, outcome);
        processed == old(processed) + [p] && stats == Apply(old(stats), p) && (crashed <==> p == Crashed)
        && calls == old(calls) + CallsFor(lead, p) && activity == old(activity) + WritesFor(lead, p, callId)
    {
      StepConsistent(activeCampaign, currentLeadIndex, processed, baseline, stats, outcome);
      if DoNotCall(activeCampaign[currentLeadIndex]) {
        Skip();
        return false;
      }
      crashed := Dial(outcome, callId);
    }

    /** The do-not-call branch: the lead is passed over without a call. */
    method Skip()
      requires 0 <= currentLeadIndex < |activeCampaign| && DoNotCall(activeCampaign[currentLeadIndex])
      modifies this
      ensures activeCampaign == old(activeCampaign) && isRunning == old(isRunning) && baseline == old(baseline)
      ensures currentLeadIndex == old(currentLeadIndex) + 1
      ensures processed == old(processed) + [Skipped] && stats == old(stats)
      ensures calls == old(calls) && activity == old(activity)
    {
      currentLeadIndex := currentLeadIndex + 1;
      processed := processed + [Skipped];
    }

    /** The rest of the pass: count the dial, place the call, log it, and,
        unless the first log write raises, tally the outcome and log it. */
    method Dial(outcome: Outcome, callId: Option<string>) returns (crashed: bool)
      requires 0 <= currentLeadIndex < |activeCampaign|
      requires Queued(activeCampaign[currentLeadIndex]) && !DoNotCall(activeCampaign[currentLeadIndex])
      modifies this
      ensures activeCampaign == old(activeCampaign) && isRunning == old(isRunning) && baseline == old(baseline)
      ensures currentLeadIndex == old(currentLeadIndex) + 1
      ensures var lead := old(activeCampaign[currentLeadIndex]); var p := PassFor(lead, outcome);
        processed == old(processed) + [p] && stats == Apply(old(stats), p) && (crashed <==> p == Crashed)
        && calls == old(calls) + CallsFor(lead, p) && activity == old(activity) + WritesFor(lead, p, callId)
    {
      var lead := activeCampaign[currentLeadIndex];
      currentLeadIndex := currentLeadIndex + 1;
      stats := stats.(dialed := stats.dialed + 1);
      calls := calls + [CallPlaced(lead["phone"], lead["name"], ScriptFor(lead))];
      if NameCrashes(lead["name"]) {
        processed := processed + [Crashed];
        return true;
      }
      activity := activity + [Dialing(lead["name"].s, lead["company"], callId)];
      var kind := Classify(Label(outcome));
      ClassifyOutcomes(outcome);
      stats := Tally(stats, kind);
      activity := activity + [Settled(lead["name"].s, lead["company"], outcome)];
      processed := processed + [Called(outcome)];
      crashed := false;
    }

    /** A pass of the `_run_dialer` loop inside a run that started at
        position `start` with the traces `ps0`, `cs0` and `ws0`: the traces
        grow by the pass, and so does the record of passes that raised. */
    method Advance(start: nat, outcomes: seq<Outcome>, callIds: seq<Option<string>>,
                   ghost ps0: seq<Pass>, ghost cs0: seq<CallPlaced>, ghost ws0: seq<LogWrite>)
      returns (crashed: bool)
      requires Valid() && start <= currentLeadIndex < |activeCampaign|
      requires |outcomes| == |activeCampaign| && |callIds| == |activeCampaign|
      requires Traced(activeCampaign, start, currentLeadIndex, outcomes, callIds, ps0, cs0, ws0,
                      processed, calls, activity)
      requires NoCrash(activeCampaign, start, currentLeadIndex, outcomes)
      modifies this
      ensures Valid()
      ensures activeCampaign == old(activeCampaign) && isRunning == old(isRunning) && baseline == old(baseline)
      ensures currentLeadIndex == old(currentLeadIndex) + 1
      ensures Traced(activeCampaign, start, currentLeadIndex, outcomes, callIds, ps0, cs0, ws0,
                     processed, calls, activity)
      ensures crashed ==> processed[currentLeadIndex - 1] == Crashed
      ensures !crashed ==> NoCrash(activeCampaign, start, currentLeadIndex, outcomes)
    {
      var i := currentLeadIndex;
      ghost var q := activeCampaign;
      ghost var (ps, cs, ws) := (processed, calls, activity);
      TracedSnoc(q, start, i, outcomes, callIds, ps0, cs0, ws0, ps, cs, ws);
      crashed := Step(outcomes[i], callIds[i]);
      if crashed {
        assert processed[i] == Crashed by { assert |ps| == i; }
      } else {
        NoCrashSnoc(q, start, i, outcomes);
      }
    }

    /** `_run_dialer`: `outcomes[i]` and `callIds[i]` are the outcome and
        the call id for the lead at queue position i; stop_campaign arrives
        after `stopAfter` passes (a number at least the leads left means it
        never cuts the run short).  Returns the number of passes and whether
        the last one raised. */
    method RunDialer(outcomes: seq<Outcome>, callIds: seq<Option<string>>, stopAfter: nat)
      returns (steps: nat, crashed: bool)
      requires Valid() && |outcomes| == |activeCampaign| && |callIds| == |activeCampaign|
      modifies this
      ensures Valid()
      ensures activeCampaign == old(activeCampaign) && baseline == old(baseline)
      ensures currentLeadIndex == old(currentLeadIndex) + steps
      ensures old(currentLeadIndex) <= currentLeadIndex <= |activeCampaign|
      ensures Traced(activeCampaign, old(currentLeadIndex), currentLeadIndex, outcomes, callIds,
                     old(processed), old(calls), old(activity), processed, calls, activity)
      ensures steps <= stopAfter
      ensures crashed ==> steps > 0 && isRunning && processed[currentLeadIndex - 1] == Crashed
      ensures !crashed ==> !isRunning && NoCrash(activeCampaign, old(currentLeadIndex), currentLeadIndex, outcomes)
      ensures !crashed && old(isRunning) && steps < stopAfter
              ==> currentLeadIndex == |activeCampaign|
    {
      var start := currentLeadIndex;
      ghost var (ps0, cs0, ws0) := (processed, calls, activity);
      steps := 0;
      crashed := false;
      if stopAfter == 0 {
        Stop();
      }
      TracedStart(activeCampaign, start, outcomes, callIds, ps0, cs0, ws0);
      while isRunning && currentLeadIndex < |activeCampaign|
        invariant Valid()
        invariant activeCampaign == old(activeCampaign) && baseline == old(baseline)
        invariant currentLeadIndex == start + steps
        invariant Traced(activeCampaign, start, currentLeadIndex, outcomes, callIds, ps0, cs0, ws0,
                         processed, calls, activity)
        invariant !crashed && NoCrash(activeCampaign, start, currentLeadIndex, outcomes)
        invariant steps <= stopAfter
        invariant stopAfter == steps ==> !isRunning
        invariant old(isRunning) && steps < stopAfter ==> isRunning
        decreases |activeCampaign| - currentLeadIndex
      {
        crashed := Advance(start, outcomes, callIds, ps0, cs0, ws0);
        steps := steps + 1;
        if crashed {
          // The exception ends the task before the flag is cleared.
          return;
        }
        if stopAfter == steps {
          Stop();
        }
      }
      isRunning := false;
    }
  }

  /** The passes the dialer makes over queue positions `lo` to `hi`. */
  ghost function Passes(q: seq<Dict>, lo: int, hi: int, outcomes: seq<Outcome>): (ps: seq<Pass>)
    requires 0 <= lo <= hi <= |q| && AllQueued(q) && |outcomes| == |q|
    ensures |ps| == hi - lo
    decreases hi - lo
  {
    if hi == lo then [] else Passes(q, lo, hi - 1, outcomes) + [PassFor(q[hi - 1], outcomes[hi - 1])]
  }

  /** The pass at each position of a run is the one its lead and outcome give. */
  lemma {:induction false} PassesAt(q: seq<Dict>, lo: int, hi: int, outcomes: seq<Outcome>, k: int)
    requires 0 <= lo <= k < hi <= |q| && AllQueued(q) && |outcomes| == |q|
    ensures Passes(q, lo, hi, outcomes)[k - lo] == PassFor(q[k], outcomes[k])
    decreases hi - lo
  {
    if k < hi - 1 {
      PassesAt(q, lo, hi - 1, outcomes, k);
    }
  }

  /** The passes a run skips are exactly the do-not-call leads it went over. */
  lemma RunSkipsDoNotCall(q: seq<Dict>, lo: int, hi: int, outcomes: seq<Outcome>)
    requires 0 <= lo <= hi <= |q| && AllQueued(q) && |outcomes| == |q|
    ensures Skips(Passes(q, lo, hi, outcomes)) == DoNotCallCount(q[lo..hi])
  {
    var ps := Passes(q, lo, hi, outcomes);
    forall i | 0 <= i < hi - lo
      ensures ps[i] == PassFor(q[lo..hi][i], outcomes[lo + i])
    {
      PassesAt(q, lo, hi, outcomes, lo + i);
    }
    SkipsAreDoNotCall(q[lo..hi], ps);
  }

  /** The calls the dialer places over queue positions `lo` to `hi`. */
  ghost function Calls(q: seq<Dict>, lo: int, hi: int, outcomes: seq<Outcome>): (c: seq<CallPlaced>)
    requires 0 <= lo <= hi <= |q| && AllQueued(q) && |outcomes| == |q|
    decreases hi - lo
  {
    if hi == lo then []
    else Calls(q, lo, hi - 1, outcomes) + CallsFor(q[hi - 1], PassFor(q[hi - 1], outcomes[hi - 1]))
  }

  /** The activity-log writes the dialer makes over queue positions `lo` to `hi`. */
  ghost function Writes(q: seq<Dict>, lo: int, hi: int, outcomes: seq<Outcome>, callIds: seq<Option<string>>)
    : (w: seq<LogWrite>)
    requires 0 <= lo <= hi <= |q| && AllQueued(q) && |outcomes| == |q| && |callIds| == |q|
    decreases hi - lo
  {
    if hi == lo then []
    else Writes(q, lo, hi - 1, outcomes, callIds)
         + WritesFor(q[hi - 1], PassFor(q[hi - 1], outcomes[hi - 1]), callIds[hi - 1])
  }

  /** No pass over positions `lo` to `hi` raises. */
  ghost predicate NoCrash(q: seq<Dict>, lo: int, hi: int, outcomes: seq<Outcome>)
    requires 0 <= lo <= hi <= |q| && AllQueued(q) && |outcomes| == |q|
  {
    forall k :: lo <= k < hi ==> PassFor(q[k], outcomes[k]) != Crashed
  }

  /** The recorded traces are the ones at the start of the run followed by
      the traces of positions `lo` to `hi`. */
  ghost predicate Traced(q: seq<Dict>, lo: int, hi: int, outcomes: seq<Outcome>, callIds: seq<Option<string>>,
                         ps0: seq<Pass>, cs0: seq<CallPlaced>, ws0: seq<LogWrite>,
                         ps: seq<Pass>, cs: seq<CallPlaced>, ws: seq<LogWrite>)
    requires 0 <= lo <= hi <= |q| && AllQueued(q) && |outcomes| == |q| && |callIds| == |q|
  {
    ps == ps0 + Passes(q, lo, hi, outcomes) && cs == cs0 + Calls(q, lo, hi, outcomes)
    && ws == ws0 + Writes(q, lo, hi, outcomes, callIds)
  }

  lemma TracedStart(q: seq<Dict>, lo: int, outcomes: seq<Outcome>, callIds: seq<Option<string>>,
                    ps0: seq<Pass>, cs0: seq<CallPlaced>, ws0: seq<LogWrite>)
    requires 0 <= lo <= |q| && AllQueued(q) && |outcomes| == |q| && |callIds| == |q|
    ensures Traced(q, lo, lo, outcomes, callIds, ps0, cs0, ws0, ps0, cs0, ws0)
  {
    assert ps0 + [] == ps0 && cs0 + [] == cs0 && ws0 + [] == ws0;
  }

  lemma NoCrashSnoc(q: seq<Dict>, lo: int, hi: int, outcomes: seq<Outcome>)
    requires 0 <= lo <= hi < |q| && AllQueued(q) && |outcomes| == |q|
    requires NoCrash(q, lo, hi, outcomes) && PassFor(q[hi], outcomes[hi]) != Crashed
    ensures NoCrash(q, lo, hi + 1, outcomes)
  {
  }

  /** Appending one position's pass, calls and writes extends the traces by that position. */
  lemma TracedSnoc(q: seq<Dict>, lo: int, hi: int, outcomes: seq<Outcome>, callIds: seq<Option<string>>,
                   ps0: seq<Pass>, cs0: seq<CallPlaced>, ws0: seq<LogWrite>,
                   ps: seq<Pass>, cs: seq<CallPlaced>, ws: seq<LogWrite>)
    requires 0 <= lo <= hi < |q| && AllQueued(q) && |outcomes| == |q| && |callIds| == |q|
    requires Traced(q, lo, hi, outcomes, callIds, ps0, cs0, ws0, ps, cs, ws)
    ensures var p := PassFor(q[hi], outcomes[hi]);
      Traced(q, lo, hi + 1, outcomes, callIds, ps0, cs0, ws0,
             ps + [p], cs + CallsFor(q[hi], p), ws + WritesFor(q[hi], p, callIds[hi]))
  {
    var p := PassFor(q[hi], outcomes[hi]);
    assert Passes(q, lo, hi + 1, outcomes) == Passes(q, lo, hi, outcomes) + [p];
    assert ps + [p] == ps0 + (Passes(q, lo, hi, outcomes) + [p]);
    assert cs + CallsFor(q[hi], p) == cs0 + (Calls(q, lo, hi, outcomes) + CallsFor(q[hi], p));
    assert ws + WritesFor(q[hi], p, callIds[hi]) == ws0 + (Writes(q, lo, hi, outcomes, callIds) + WritesFor(q[hi], p, callIds[hi]));
  }

  // ---------------------------------------------------------------------------
  // Scenarios
  // ---------------------------------------------------------------------------

  /** A CSV row with only a name and a phone column. */
  function NamedRow(name: string, phone: string): Dict {
    map["Name" := Str(name), "Phone" := Str(phone)]
  }

  /** Such a row is queued under its name, with the city defaulted, and is
      not marked do-not-call. */
  lemma NamedRowLoads(name: string, phone: string)
    requires name != [] && !IsSpace(name[0])
    ensures var r := NormalizeCsvRow(NamedRow(name, phone));
      r.Ok? && r.value["name"] == Str(name) && r.value["city"] == Str("Unknown") && !DoNotCall(r.value)
      && forall o :: PassFor(r.value, o) == Called(o)
  {
    var row := NamedRow(name, phone);
    NameWithLetterLogs(name, 0);
    assert AddressKey !in row && "City" !in row && "Primary Borrower" !in row;
    assert "do_not_call" !in CsvLeadKeys && "DoNotCall" !in CsvLeadKeys;
  }

  /** Two CSV rows with a borrower name each and no address column. */
  function TwoCsvRows(): seq<Dict> {
    [NamedRow("Ann Lee", "555-0100"), NamedRow("Bo Diaz", "555-0101")]
  }

  /** Both rows load, under their own names and without a do-not-call flag. */
  lemma TwoCsvRowsLoad()
    ensures var l := LoadAll(TwoCsvRows(), NormalizeCsvRow);
      l.error.None? && |l.leads| == 2
      && l.leads[0]["name"] == Str("Ann Lee") && !DoNotCall(l.leads[0])
      && l.leads[1]["name"] == Str("Bo Diaz") && !DoNotCall(l.leads[1])
      && (forall o :: PassFor(l.leads[0], o) == Called(o) && PassFor(l.leads[1], o) == Called(o))
  {
    NamedRowLoads("Ann Lee", "555-0100");
    NamedRowLoads("Bo Diaz", "555-0101");
  }

  /** The first lead books an appointment and the second reaches voicemail. */
  const BookThenVoicemail: seq<Outcome> := [Appointment, Voicemail]

  /** The counters of a two-lead campaign after a booking. */
  lemma BookingCounts(ps: seq<Pass>)
    requires |ps| == 1 && ps[0] == Called(Appointment)
    ensures Run(Stats(2, 0, 0, 0), ps) == Stats(2, 1, 1, 1)
  {
    assert ps[..0] == [];
  }

  /** ... and after a booking and then a voicemail. */
  lemma BookThenVoicemailCounts(ps: seq<Pass>)
    requires |ps| == 2 && ps[0] == Called(Appointment) && ps[1] == Called(Voicemail)
    ensures Run(Stats(2, 0, 0, 0), ps) == Stats(2, 2, 1, 1)
  {
    BookingCounts(ps[..1]);
  }

  /** A new manager with the two rows loaded and the campaign started. */
  method StartTwoLeads(sf: Crm.SalesforceClient) returns (m: CampaignManager, loaded: Result<nat, LoadError>, spawned: bool)
    ensures fresh(m) && m.Valid() && m.isRunning && loaded == Ok(2) && spawned
    ensures |m.activeCampaign| == 2 && m.currentLeadIndex == 0 && m.processed == [] && m.baseline == Stats(2, 0, 0, 0)
    ensures PassFor(m.activeCampaign[0], BookThenVoicemail[0]) == Called(Appointment)
    ensures PassFor(m.activeCampaign[1], BookThenVoicemail[1]) == Called(Voicemail)
  {
    m := new CampaignManager(sf);
    TwoCsvRowsLoad();
    loaded := m.LoadFromCsv(TwoCsvRows());
    spawned := m.Start();
  }

  /** The passes of a run over the two leads: the booking, then the voicemail. */
  lemma TwoLeadPasses(q: seq<Dict>, steps: nat, ps: seq<Pass>)
    requires |q| == 2 && AllQueued(q) && steps <= 2
    requires PassFor(q[0], BookThenVoicemail[0]) == Called(Appointment)
    requires PassFor(q[1], BookThenVoicemail[1]) == Called(Voicemail)
    requires ps == Passes(q, 0, steps, BookThenVoicemail)
    ensures ps == [Called(Appointment), Called(Voicemail)][..steps]
  {
    if steps >= 1 {
      PassesAt(q, 0, steps, BookThenVoicemail, 0);
    }
    if steps == 2 {
      PassesAt(q, 0, 2, BookThenVoicemail, 1);
    }
  }

  /** A run over the two leads that stops at neither of them goes through
      both and tallies one booking and one voicemail. */
  lemma TwoLeadRun(q: seq<Dict>, steps: nat, ps: seq<Pass>)
    requires |q| == 2 && AllQueued(q) && steps <= 2
    requires PassFor(q[0], BookThenVoicemail[0]) == Called(Appointment)
    requires PassFor(q[1], BookThenVoicemail[1]) == Called(Voicemail)
    requires ps == Passes(q, 0, steps, BookThenVoicemail)
    ensures forall k :: 0 <= k < steps ==> ps[k] != Crashed
    ensures steps == 1 ==> Run(Stats(2, 0, 0, 0), ps) == Stats(2, 1, 1, 1)
    ensures steps == 2 ==> Run(Stats(2, 0, 0, 0), ps) == Stats(2, 2, 1, 1)
  {
    TwoLeadPasses(q, steps, ps);
    TwoPassCounts(steps, ps);
  }

  /** The tallies of the booking-then-voicemail passes, cut after `steps`. */
  lemma TwoPassCounts(steps: nat, ps: seq<Pass>)
    requires steps <= 2 && ps == [Called(Appointment), Called(Voicemail)][..steps]
    ensures forall k :: 0 <= k < steps ==> ps[k] != Crashed
    ensures steps == 1 ==> Run(Stats(2, 0, 0, 0), ps) == Stats(2, 1, 1, 1)
    ensures steps == 2 ==> Run(Stats(2, 0, 0, 0), ps) == Stats(2, 2, 1, 1)
  {
    if steps == 1 {
      BookingCounts(ps);
    } else if steps == 2 {
      BookThenVoicemailCounts(ps);
    }
  }

  /** Loading the two rows, starting the campaign and letting the dialer run
      to the end: two leads, two dials, one connect, one appointment, and
      the campaign no longer running. */
  method CsvCampaignScenario(sf: Crm.SalesforceClient)
    returns (loaded: Result<nat, LoadError>, spawned: bool, steps: nat, crashed: bool, s: Stats, running: bool)
    ensures loaded == Ok(2) && spawned && steps == 2 && !crashed && !running
    ensures s == Stats(2, 2, 1, 1)
  {
    var m;
    m, loaded, spawned := StartTwoLeads(sf);
    steps, crashed := m.RunDialer(BookThenVoicemail, [None, None], 10);
    TwoLeadRun(m.activeCampaign, steps, m.processed);
    s := m.stats;
    running := m.isRunning;
  }

  /** stop_campaign arriving after the first pass: the dialer stops between
      the two leads with the booking counted, and the cursor stays on the
      second lead. */
  method StopAfterFirstScenario(sf: Crm.SalesforceClient) returns (steps: nat, cursor: int, s: Stats, running: bool)
    ensures steps == 1 && cursor == 1 && s == Stats(2, 1, 1, 1) && !running
  {
    var m, _, _ := StartTwoLeads(sf);
    var crashed;
    steps, crashed := m.RunDialer(BookThenVoicemail, [None, None], 1);
    TwoLeadRun(m.activeCampaign, steps, m.processed);
    cursor := m.currentLeadIndex;
    s := m.stats;
    running := m.isRunning;
  }

  /** A row whose name is a single space loads, and every pass over it raises. */
  lemma BlankRowLoads()
    ensures var r := NormalizeCsvRow(NamedRow(" ", "555-0199"));
      r.Ok? && r.value["name"] == Str(" ") && forall o :: PassFor(r.value, o) == Crashed
  {
    var row := NamedRow(" ", "555-0199");
    assert AddressKey !in row && "City" !in row && "Primary Borrower" !in row;
    assert "do_not_call" !in CsvLeadKeys && "DoNotCall" !in CsvLeadKeys;
    WordsEmptyIff(" ");
  }

  /** A new manager with the blank-named row loaded and the campaign started. */
  method StartBlankLead(sf: Crm.SalesforceClient) returns (m: CampaignManager)
    ensures fresh(m) && m.Valid() && m.isRunning
    ensures |m.activeCampaign| == 1 && m.currentLeadIndex == 0 && m.processed == [] && m.baseline == Stats(1, 0, 0, 0)
    ensures forall o :: PassFor(m.activeCampaign[0], o) == Crashed
  {
    m := new CampaignManager(sf);
    BlankRowLoads();
    var _ := m.LoadFromCsv([NamedRow(" ", "555-0199")]);
    var _ := m.Start();
  }

  /** A run over a queue whose only lead raises ends on that lead, having
      counted its dial. */
  lemma BlankLeadRun(q: seq<Dict>, steps: nat, ps: seq<Pass>)
    requires |q| == 1 && AllQueued(q) && steps == 1
    requires forall o :: PassFor(q[0], o) == Crashed
    requires ps == Passes(q, 0, steps, [Voicemail])
    ensures ps == [Crashed] && Run(Stats(1, 0, 0, 0), ps) == Stats(1, 1, 0, 0)
  {
    PassesAt(q, 0, 1, [Voicemail], 0);
    RunSnoc(Stats(1, 0, 0, 0), [], Crashed);
  }

  /** A lead whose name has no word makes the first log write raise: the
      dialer task ends after one dial, and the campaign stays marked as
      running. */
  method BlankNameScenario(sf: Crm.SalesforceClient) returns (steps: nat, crashed: bool, s: Stats, running: bool)
    ensures steps == 1 && crashed && running && s == Stats(1, 1, 0, 0)
  {
    var m := StartBlankLead(sf);
    steps, crashed := m.RunDialer([Voicemail], [None], 10);
    BlankLeadRun(m.activeCampaign, steps, m.processed);
    s := m.stats;
    running := m.isRunning;
  }
}
