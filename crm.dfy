/** The CRM client (core/salesforce_client.py) without its network side:
    whether a session exists is fixed at construction, every remote call
    is an input standing for what the CRM answered (`None` when the call
    raised), and the client reports the request it would send. */
module Crm {
  import opened Base
  import opened Text

  /** A request sent to the CRM: the operation, the record it targets and the fields. */
  datatype Request = Request(operation: string, target: string, fields: Dict)

  /** What a client operation sends (nothing in demo mode) and what it returns. */
  datatype Call<T> = Call(request: Option<Request>, result: T)

  // ---------------------------------------------------------------------------
  // Disposition to lead status (_map_disposition_to_status)
  // ---------------------------------------------------------------------------

  const DispositionStatus: map<string, string> := map[
    "INTERESTED" := "Working - Contacted",
    "CALLBACK_SCHEDULED" := "Working - Contacted",
    "NOT_INTERESTED" := "Closed - Not Converted",
    "VOICEMAIL" := "Open - Not Contacted",
    "NO_ANSWER" := "Open - Not Contacted",
    "WRONG_NUMBER" := "Closed - Not Converted",
    "DO_NOT_CALL" := "Closed - Not Converted",
    "APPOINTMENT_BOOKED" := "Qualified"]

  function StatusForDisposition(disposition: string): (status: string)
    ensures status == "Qualified" <==> disposition == "APPOINTMENT_BOOKED"
    ensures status == "Working - Contacted" <==> disposition == "INTERESTED" || disposition == "CALLBACK_SCHEDULED"
    ensures status == "Closed - Not Converted" <==>
      disposition == "NOT_INTERESTED" || disposition == "WRONG_NUMBER" || disposition == "DO_NOT_CALL"
    ensures status == "Open - Not Contacted" <==>
      disposition == "VOICEMAIL" || disposition == "NO_ANSWER" || disposition !in DispositionStatus
  {
    if disposition in DispositionStatus then DispositionStatus[disposition] else "Open - Not Contacted"
  }

  // ---------------------------------------------------------------------------
  // Request payloads
  // ---------------------------------------------------------------------------

  /** The fields update_lead_disposition writes: the mapped status, the notes
      when they are non-empty and a generated description otherwise, and the
      attempt number only when it is a non-zero number. */
  function DispositionUpdate(disposition: string, notes: Option<string>, callCount: Option<int>): (d: Dict)
    ensures "Status" in d && d["Status"] == Str(StatusForDisposition(disposition))
    ensures "Description" in d && d["Description"] == Str(if Present(notes) then notes.value else "AI Agent call - " + disposition)
    ensures "Call_Attempt__c" in d <==> callCount.Some? && callCount.value != 0
    ensures "Call_Attempt__c" in d ==> d["Call_Attempt__c"] == Int(callCount.value)
    ensures d.Keys <= {"Status", "Description", "Call_Attempt__c"}
  {
    var base := map["Status" := Str(StatusForDisposition(disposition)),
                     "Description" := Str(if Present(notes) then notes.value else "AI Agent call - " + disposition)];
    if callCount.Some? && callCount.value != 0 then base["Call_Attempt__c" := Int(callCount.value)] else base
  }

  /** The task create_task creates; `due` is the due date already rendered as `%Y-%m-%d`. */
  function TaskData(leadId: string, subject: string, description: string, due: Option<string>, priority: string): (d: Dict)
    ensures d.Keys == {"WhoId", "Subject", "Description", "Priority", "Status", "Type", "ActivityDate"}
    ensures d["WhoId"] == Str(leadId) && d["Subject"] == Str(subject) && d["Description"] == Str(description)
    ensures d["Priority"] == Str(priority) && d["Status"] == Str("Not Started") && d["Type"] == Str("Call")
    ensures d["ActivityDate"] == (if due.Some? then Str(due.value) else Null)
  {
    map["WhoId" := Str(leadId), "Subject" := Str(subject), "Description" := Str(description),
        "Priority" := Str(priority), "Status" := Str("Not Started"), "Type" := Str("Call"),
        "ActivityDate" := if due.Some? then Str(due.value) else Null]
  }

  // ---------------------------------------------------------------------------
  // Call logging text (log_call)
  // ---------------------------------------------------------------------------

  /** A duration in whole minutes and leftover seconds (`d // 60`, `d % 60`). */
  function SplitDuration(seconds: int): (ms: (int, int))
    ensures 60 * ms.0 + ms.1 == seconds
    ensures 0 <= ms.1 < 60
  {
    (seconds / 60, seconds % 60)
  }

  /** The minutes and seconds shown are the only pair with both properties. */
  lemma SplitDurationUnique(seconds: int, m: int, s: int)
    requires 60 * m + s == seconds && 0 <= s < 60
    ensures SplitDuration(seconds) == (m, s)
  {
    var (m', s') := SplitDuration(seconds);
    assert 60 * (m - m') == s' - s;
  }

  function LogCallSubject(callNumber: int, outcome: string): (subject: string)
    ensures |subject| > 15 && subject[..15] == "AI Agent Call #"
  {
    "AI Agent Call #" + IntToString(callNumber) + " - " + outcome
  }

  /** The subject names its call: two calls with the same subject have the
      same number and the same outcome. */
  lemma LogCallSubjectDistinguishes(n1: int, o1: string, n2: int, o2: string)
    requires LogCallSubject(n1, o1) == LogCallSubject(n2, o2)
    ensures n1 == n2 && o1 == o2
  {
    var a, b := IntToString(n1), IntToString(n2);
    var x, y := a + " - " + o1, b + " - " + o2;
    assert x == LogCallSubject(n1, o1)[15..] == LogCallSubject(n2, o2)[15..] == y;
    assert x == a + [' '] + ("- " + o1) && y == b + [' '] + ("- " + o2);
    SplitOnCons(a, ' ', "- " + o1);
    SplitOnCons(b, ' ', "- " + o2);
    assert a == SplitOn(x, ' ')[0] == b;
    IntToStringInjective(n1, n2);
    assert o1 == x[|a| + 3..] == y[|b| + 3..] == o2;
  }

  /** The header shows the duration as whole minutes and the leftover
      seconds, then the outcome and the call's place in the cadence. */
  lemma LogCallHeaderShows(outcome: string, seconds: int, callNumber: int, m: int, s: int)
    requires 60 * m + s == seconds && 0 <= s < 60
    ensures LogCallHeader(outcome, seconds, callNumber)
      == "Call Duration: " + IntToString(m) + "m " + IntToString(s) + "s\nOutcome: " + outcome
         + "\nCall Number: " + IntToString(callNumber) + " of 11\n\nNotes:"
  {
    SplitDurationUnique(seconds, m, s);
  }

  /** The description up to the "Notes:" label. */
  function LogCallHeader(outcome: string, seconds: int, callNumber: int): (h: string)
    ensures |h| > 15 && h[0] == 'C' && h[|h| - 1] == ':'
  {
    var lines := "Call Duration: " + IntToString(SplitDuration(seconds).0) + "m " + IntToString(SplitDuration(seconds).1)
      + "s\nOutcome: " + outcome + "\nCall Number: " + IntToString(callNumber) + " of 11\n\n";
    assert lines[0] == 'C';
    lines + "Notes:"
  }

  /** The description of a call task: the triple-quoted text opens with a
      line break and ends with a line break and the closing indentation, and
      `.strip()` removes both, together with trailing whitespace of the notes
      (and the line break before them when the notes are blank). */
  function LogCallDescription(outcome: string, seconds: int, notes: string, callNumber: int): (text: string)
    ensures var header := LogCallHeader(outcome, seconds, callNumber);
      text == if AllSpace(notes) then header else header + "\n" + StripRight(notes)
  {
    StripLayout(LogCallHeader(outcome, seconds, callNumber), notes);
    Strip("\n" + LogCallHeader(outcome, seconds, callNumber) + "\n" + notes + "\n        ")
  }

  /** Stripping the triple-quoted layout around a header `h` and the notes. */
  lemma StripLayout(h: string, notes: string)
    requires |h| > 0 && !IsSpace(h[0]) && !IsSpace(h[|h| - 1])
    ensures Strip("\n" + h + "\n" + notes + "\n        ")
      == if AllSpace(notes) then h else h + "\n" + StripRight(notes)
  {
    LayoutLeft(h, notes);
    LayoutRight(h, notes);
    if AllSpace(notes) {
      StripRightBlank(h, notes);
    } else {
      StripRightConcat(h + "\n", notes);
    }
  }

  lemma LayoutLeft(h: string, notes: string)
    requires |h| > 0 && !IsSpace(h[0])
    ensures StripLeft("\n" + h + "\n" + notes + "\n        ") == h + "\n" + notes + "\n        "
  {
    LayoutLeftBefore(h, notes, "\n        ");
  }

  /** The same for any text after the notes. */
  lemma LayoutLeftBefore(h: string, notes: string, tail: string)
    requires |h| > 0 && !IsSpace(h[0])
    ensures StripLeft("\n" + h + "\n" + notes + tail) == h + "\n" + notes + tail
  {
    assert "\n" + h + "\n" + notes + tail == "\n" + (h + ("\n" + notes + tail));
    StripLeftLayout(h, "\n" + notes + tail);
    assert h + ("\n" + notes + tail) == h + "\n" + notes + tail;
  }

  lemma LayoutRight(h: string, notes: string)
    requires StripLeft("\n" + h + "\n" + notes + "\n        ") == h + "\n" + notes + "\n        "
    ensures Strip("\n" + h + "\n" + notes + "\n        ") == StripRight(h + "\n" + notes)
  {
    var tail := "\n        ";
    assert AllSpace(tail);
    StripRightSpaces(h + "\n" + notes, tail);
  }

  lemma StripRightBlank(h: string, notes: string)
    requires |h| > 0 && !IsSpace(h[|h| - 1]) && AllSpace(notes)
    ensures StripRight(h + "\n" + notes) == h
  {
    assert AllSpace("\n" + notes);
    assert h + "\n" + notes == h + ("\n" + notes);
    StripRightSpaces(h, "\n" + notes);
  }

  lemma StripLeftLayout(h: string, rest: string)
    requires |h| > 0 && !IsSpace(h[0])
    ensures StripLeft("\n" + (h + rest)) == h + rest
  {
    var s := "\n" + (h + rest);
    assert s[1..] == h + rest;
    assert (h + rest)[0] == h[0];
  }

  // ---------------------------------------------------------------------------
  // Relative time (_format_relative_time) over whole minutes elapsed
  // ---------------------------------------------------------------------------

  datatype Ago = JustNow | MinsAgo(mins: int) | HoursAgo(hours: int) | DaysAgo(days: int)

  /** The bucket for a number of minutes; the number shown is rounded down. */
  function Bucket(minutes: int): (a: Ago)
    ensures a.JustNow? <==> minutes < 1
    ensures a.MinsAgo? <==> 1 <= minutes < 60
    ensures a.HoursAgo? <==> 60 <= minutes < 1440
    ensures a.DaysAgo? <==> 1440 <= minutes
    ensures a.MinsAgo? ==> a.mins == minutes
    ensures a.HoursAgo? ==> 1 <= a.hours <= 23 && 60 * a.hours <= minutes < 60 * (a.hours + 1)
    ensures a.DaysAgo? ==> 1 <= a.days && 1440 * a.days <= minutes < 1440 * (a.days + 1)
  {
    if minutes < 1 then JustNow
    else if minutes < 60 then MinsAgo(minutes)
    else if minutes < 1440 then HoursAgo(minutes / 60)
    else DaysAgo(minutes / 1440)
  }

  /** `minutes` is `None` when the timestamp does not parse. */
  function FormatRelativeTime(minutes: Option<int>): (text: string)
    ensures minutes.None? ==> text == "Recently"
    ensures minutes.Some? && minutes.value < 1 ==> text == "Just now"
    ensures minutes.Some? && 1 <= minutes.value < 60 ==> text == IntToString(minutes.value) + " mins ago"
    ensures minutes.Some? && 60 <= minutes.value < 1440 ==> text == IntToString(minutes.value / 60) + " hours ago"
    ensures minutes.Some? && 1440 <= minutes.value ==> text == IntToString(minutes.value / 1440) + " days ago"
  {
    if minutes.None? then "Recently"
    else
      match Bucket(minutes.value)
      case JustNow => "Just now"
      case MinsAgo(m) => IntToString(m) + " mins ago"
      case HoursAgo(h) => IntToString(h) + " hours ago"
      case DaysAgo(d) => IntToString(d) + " days ago"
  }

  /** Later timestamps never fall into a coarser bucket than earlier ones,
      and within a bucket the number shown never decreases. */
  lemma BucketMonotone(m: int, n: int)
    requires m <= n
    ensures Rank(Bucket(m)) <= Rank(Bucket(n))
    ensures Rank(Bucket(m)) == Rank(Bucket(n)) ==> Amount(Bucket(m)) <= Amount(Bucket(n))
  {
  }

  function Rank(a: Ago): nat {
    match a
    case JustNow => 0
    case MinsAgo(_) => 1
    case HoursAgo(_) => 2
    case DaysAgo(_) => 3
  }

  function Amount(a: Ago): int {
    match a
    case JustNow => 0
    case MinsAgo(m) => m
    case HoursAgo(h) => h
    case DaysAgo(d) => d
  }

  // ---------------------------------------------------------------------------
  // Demo records (_demo_lead) and campaign leads (get_leads_for_campaign)
  // ---------------------------------------------------------------------------

  function DemoLead(id: string): (d: Dict)
    ensures d.Keys == {"Id", "FirstName", "LastName", "Phone", "Email", "Company", "Status", "City", "State", "Description"}
    ensures d["Id"] == Str(id) && d["FirstName"] == Str("Demo") && d["LastName"] == Str("User")
    ensures d["Company"] == Str("Demo Company") && d["Status"] == Str("Open - Not Contacted")
    ensures d["Phone"] == Str("+1-555-123-4567") && d["Email"] == Str("demo@example.com")
    ensures "FirstName" in d && "LastName" in d && "Name" !in d
  {
    map["Id" := Str(id), "FirstName" := Str("Demo"), "LastName" := Str("User"),
        "Phone" := Str("+1-555-123-4567"), "Email" := Str("demo@example.com"),
        "Company" := Str("Demo Company"), "Status" := Str("Open - Not Contacted"),
        "City" := Str("Seattle"), "State" := Str("WA"), "Description" := Str("Demo lead for testing")]
  }

  /** `[_demo_lead(f"{prefix}{i}") for i in range(1, n + 1)]` */
  function DemoLeads(prefix: string, n: nat): (leads: seq<Dict>)
    ensures |leads| == n
    ensures forall i :: 0 <= i < n ==> leads[i] == DemoLead(prefix + NatToString(i + 1))
  {
    seq(n, i requires 0 <= i < n => DemoLead(prefix + NatToString(i + 1)))
  }

  // ---------------------------------------------------------------------------
  // The demo activity log (log_demo_activity)
  // ---------------------------------------------------------------------------

  datatype ActivityEntry = ActivityEntry(
    id: string, firstName: string, lastName: string, company: string, status: string,
    description: string, lastModifiedDate: string, fullName: string, lastActionTime: string,
    recordingUrl: Option<string>)

  const DemoLogLimit: nat := 20

  /** The entry log_demo_activity builds when the log already holds `count`
      entries.  A name with no words makes `split()[0]` raise. */
  function NewEntry(count: nat, name: string, status: string, company: string, notes: string,
                    recordingUrl: Option<string>, now: string): (e: Option<ActivityEntry>)
    ensures e.Some? <==> Words(name) != []
    ensures e.Some? ==> e.value.id == "demo_" + NatToString(count + 1)
    ensures e.Some? ==> e.value.firstName == Words(name)[0]
    ensures e.Some? ==> e.value.lastName == (if ' ' in name then Words(name)[|Words(name)| - 1] else "")
    ensures e.Some? ==> e.value.fullName == name && e.value.status == status && e.value.lastActionTime == "Just now"
  {
    var words := Words(name);
    if words == [] then None
    else Some(ActivityEntry(
      "demo_" + NatToString(count + 1), words[0], if ' ' in name then words[|words| - 1] else "",
      company, status, notes, now, name, "Just now", recordingUrl))
  }

  /** The entry number can be read back from its id. */
  lemma EntryIdNumber(count: nat, name: string, status: string, company: string, notes: string,
                      recordingUrl: Option<string>, now: string)
    requires Words(name) != []
    ensures var id := NewEntry(count, name, status, company, notes, recordingUrl, now).value.id;
      |id| > 5 && id[..5] == "demo_" && ParseNat(id[5..]) == Some(count + 1)
  {
    var id := NewEntry(count, name, status, company, notes, recordingUrl, now).value.id;
    assert id[5..] == NatToString(count + 1);
    NatToStringRoundTrip(count + 1);
  }

  /** `log.insert(0, e); log = log[:20]` */
  function Prepend(log: seq<ActivityEntry>, e: ActivityEntry): (r: seq<ActivityEntry>)
    ensures |r| == Min(|log| + 1, DemoLogLimit)
    ensures r[0] == e
    ensures forall i :: 1 <= i < |r| ==> r[i] == log[i - 1]
  {
    ([e] + log)[..Min(|log| + 1, DemoLogLimit)]
  }

  /** Once the log is full every new entry is numbered 21, so ids repeat. */
  lemma FullLogRepeatsIds(log: seq<ActivityEntry>, name: string, status: string, company: string, notes: string,
                          recordingUrl: Option<string>, now: string)
    requires |log| == DemoLogLimit && Words(name) != []
    ensures var e := NewEntry(|log|, name, status, company, notes, recordingUrl, now).value;
      |Prepend(log, e)| == DemoLogLimit && e.id == "demo_21"
  {
    assert NatToString(21) == NatToString(2) + [DigitChar(1)];
  }

  /** What the log file holds: nothing, an empty file, or a JSON list of entries. */
  datatype DemoFile = NoFile | Blank | Holds(entries: seq<ActivityEntry>)

  /** _get_demo_log with `json` in scope: a file that does not parse reads as empty. */
  function ReadLog(f: DemoFile): (log: seq<ActivityEntry>)
    ensures f.Holds? ==> log == f.entries
    ensures !f.Holds? ==> log == []
  {
    if f.Holds? then f.entries else []
  }

  /** log_demo_activity on the file contents: the new log, or `None` when the name raises. */
  function LogDemo(f: DemoFile, name: string, status: string, company: string, notes: string,
                   recordingUrl: Option<string>, now: string): (log: Option<seq<ActivityEntry>>)
    ensures log.Some? <==> Words(name) != []
    ensures log.Some? ==> log.value == Prepend(ReadLog(f), NewEntry(|ReadLog(f)|, name, status, company, notes, recordingUrl, now).value)
  {
    var current := ReadLog(f);
    match NewEntry(|current|, name, status, company, notes, recordingUrl, now)
    case None => None
    case Some(e) => Some(Prepend(current, e))
  }

  // As written, `import json` sits inside the class body, so the name `json`
  // is not defined inside the methods: every read and every write raises
  // NameError and is logged.  Opening the file for writing has already
  // truncated it.

  function ReadLogAsWritten(f: DemoFile): (log: seq<ActivityEntry>)
    ensures log == []
  {
    []
  }

  function SaveLogAsWritten(f: DemoFile, log: seq<ActivityEntry>): (g: DemoFile)
    ensures g == Blank
  {
    Blank
  }

  datatype Logged = Logged(file: DemoFile, log: seq<ActivityEntry>)

  function LogDemoAsWritten(f: DemoFile, name: string, status: string, company: string, notes: string,
                            recordingUrl: Option<string>, now: string): (r: Option<Logged>)
    ensures r.Some? <==> Words(name) != []
    ensures r.Some? ==>
      r.value.file == Blank && r.value.log == [NewEntry(0, name, status, company, notes, recordingUrl, now).value]
  {
    var current := ReadLogAsWritten(f);
    match NewEntry(|current|, name, status, company, notes, recordingUrl, now)
    case None => None
    case Some(e) =>
      var log := Prepend(current, e);
      Some(Logged(SaveLogAsWritten(f, log), log))
  }

  /** As written, every call forgets the earlier entries: after two calls
      the log holds one entry, numbered 1, whatever the file held. */
  lemma AsWrittenForgets(f: DemoFile, a: string, b: string, status: string, company: string, notes: string,
                         recordingUrl: Option<string>, now: string)
    requires Words(a) != [] && Words(b) != []
    ensures var first := LogDemoAsWritten(f, a, status, company, notes, recordingUrl, now).value;
      var second := LogDemoAsWritten(first.file, b, status, company, notes, recordingUrl, now).value;
      |second.log| == 1 && second.log[0].id == "demo_1" && second.log[0].fullName == b
  {
  }

  /** With the log persisted, two calls on a fresh file leave both entries,
      newest first, numbered 2 and 1. */
  lemma PersistedKeepsBoth(a: string, b: string, status: string, company: string, notes: string,
                           recordingUrl: Option<string>, now: string)
    requires Words(a) != [] && Words(b) != []
    ensures var first := LogDemo(NoFile, a, status, company, notes, recordingUrl, now).value;
      var second := LogDemo(Holds(first), b, status, company, notes, recordingUrl, now).value;
      |second| == 2 && second[0].fullName == b && second[1].fullName == a
      && second[0].id == "demo_2" && second[1].id == "demo_1"
  {
  }

  /** An entry as the dashboard receives it. */
  function EntryDict(e: ActivityEntry): (d: Dict)
    ensures d.Keys == {"Id", "FirstName", "LastName", "Company", "Status", "Description",
                       "LastModifiedDate", "FullName", "LastActionTime", "RecordingUrl"}
    ensures d["Id"] == Str(e.id) && d["FullName"] == Str(e.fullName)
    ensures d["RecordingUrl"] == Null <==> e.recordingUrl.None?
  {
    map["Id" := Str(e.id), "FirstName" := Str(e.firstName), "LastName" := Str(e.lastName),
        "Company" := Str(e.company), "Status" := Str(e.status), "Description" := Str(e.description),
        "LastModifiedDate" := Str(e.lastModifiedDate), "FullName" := Str(e.fullName),
        "LastActionTime" := Str(e.lastActionTime),
        "RecordingUrl" := if e.recordingUrl.Some? then Str(e.recordingUrl.value) else Null]
  }

  function EntryDicts(log: seq<ActivityEntry>): (ds: seq<Dict>)
    ensures |ds| == |log| && forall i :: 0 <= i < |log| ==> ds[i] == EntryDict(log[i])
  {
    seq(|log|, i requires 0 <= i < |log| => EntryDict(log[i]))
  }

  // ---------------------------------------------------------------------------
  // Recent leads (get_recent_leads)
  // ---------------------------------------------------------------------------

  /** The dashboard fields added to a CRM lead; `age` is the minutes elapsed
      since a timestamp, `None` when it does not parse. */
  function Enrich(lead: Dict, age: Value -> Option<int>): (r: Dict)
    requires "LastModifiedDate" in lead
    ensures r.Keys == lead.Keys + {"FullName", "LastActionTime"}
    ensures r["LastActionTime"] == Str(FormatRelativeTime(age(lead["LastModifiedDate"])))
    ensures r["FullName"].Str? && forall k :: k in lead && k != "FullName" && k != "LastActionTime" ==> r[k] == lead[k]
  {
    lead["FullName" := Str(Strip(Show(Get(lead, "FirstName", Str(""))) + " " + Show(Get(lead, "LastName", Str("")))))]
        ["LastActionTime" := Str(FormatRelativeTime(age(lead["LastModifiedDate"])))]
  }

  function EnrichAll(leads: seq<Dict>, age: Value -> Option<int>): (r: seq<Dict>)
    requires forall i :: 0 <= i < |leads| ==> "LastModifiedDate" in leads[i]
    ensures |r| == |leads| && forall i :: 0 <= i < |leads| ==> r[i] == Enrich(leads[i], age)
  {
    seq(|leads|, i requires 0 <= i < |leads| => Enrich(leads[i], age))
  }

  /** The logged entries cut to `limit`, then the enriched leads, the whole
      cut to `limit` again: the entries first, then the leads in order. */
  lemma MergedOrder(demo: seq<Dict>, records: seq<Dict>, age: Value -> Option<int>, limit: nat)
    requires forall i :: 0 <= i < |records| ==> "LastModifiedDate" in records[i]
    ensures var leads := Take(Take(demo, limit) + EnrichAll(records, age), limit);
      var d := Min(limit, |demo|);
      |leads| == Min(limit, d + |records|)
      && leads[..d] == demo[..d]
      && (forall i :: d <= i < |leads| ==> leads[i] == Enrich(records[i - d], age))
  {
    TakeAppendTake(demo, EnrichAll(records, age), limit);
  }

  /** The body of get_recent_leads once the demo log has been read into `log`:
      offline, the log or the three demo leads; connected, the log when the
      query raised or a record lacks `LastModifiedDate` (KeyError), and
      otherwise the log followed by the enriched records. */
  function RecentLeadsFrom(connected: bool, log: seq<Dict>, limit: int, records: Option<seq<Dict>>,
                           age: Value -> Option<int>): (leads: seq<Dict>)
    ensures !connected && limit > 0 && log != [] ==> leads == log[..Min(limit, |log|)]
    ensures !connected && (limit == 0 || log == []) ==> leads == [DemoLead("d1"), DemoLead("d2"), DemoLead("d3")]
    ensures connected && records.None? ==> leads == Take(log, limit)
    ensures connected && records.Some? && (exists i :: 0 <= i < |records.value| && "LastModifiedDate" !in records.value[i])
            ==> leads == Take(log, limit)
    ensures connected && limit >= 0 ==> |leads| <= limit
    ensures connected && records.Some? && limit >= 0
            && (forall i :: 0 <= i < |records.value| ==> "LastModifiedDate" in records.value[i]) ==>
              var d := Min(limit, |log|);
              |leads| == Min(limit, d + |records.value|)
              && leads[..d] == log[..d]
              && (forall i :: d <= i < |leads| ==> leads[i] == Enrich(records.value[i - d], age))
  {
    var demo := Take(log, limit);
    if connected && records.Some? && limit >= 0
       && (forall i :: 0 <= i < |records.value| ==> "LastModifiedDate" in records.value[i]) then
      MergedOrder(log, records.value, age, limit);
      Take(demo + EnrichAll(records.value, age), limit)
    else
    if !connected then
      (if demo == [] then [DemoLead("d1"), DemoLead("d2"), DemoLead("d3")] else demo)
    else if records.None? || exists i :: 0 <= i < |records.value| && "LastModifiedDate" !in records.value[i] then
      demo
    else Take(demo + EnrichAll(records.value, age), limit)
  }

  class SalesforceClient {
    /** is_connected: a session was opened at construction. */
    const connected: bool
    var demoLogFile: DemoFile
    /** `_demo_activity_log` */
    var demoActivityLog: seq<ActivityEntry>

    /** `SalesforceClient()`: a session is opened only when all three
        credentials are non-empty and the login succeeds (`loginOk`). */
    constructor (username: Option<string>, password: Option<string>, token: Option<string>, loginOk: bool, file: DemoFile)
      ensures connected <==> Present(username) && Present(password) && Present(token) && loginOk
      ensures demoLogFile == file && demoActivityLog == []
    {
      connected := Present(username) && Present(password) && Present(token) && loginOk;
      demoLogFile := file;
      demoActivityLog := [];
    }

    /** get_leads_for_campaign; `records` is what the query returned, `None` when it raised. */
    function GetLeadsForCampaign(campaignId: string, records: Option<seq<Dict>>): (leads: seq<Dict>)
      ensures !connected ==> leads == DemoLeads("lead_00", 5)
      ensures connected && records.None? ==> leads == DemoLeads("err_lead_", 3)
      ensures connected && records == Some([]) && Contains(campaignId, "TEST") ==> leads == DemoLeads("lead_test_", 3)
      ensures connected && records.Some? && !(records.value == [] && Contains(campaignId, "TEST")) ==> leads == records.value
    {
      if !connected then DemoLeads("lead_00", 5)
      else if records.None? then DemoLeads("err_lead_", 3)
      else if records.value == [] && Contains(campaignId, "TEST") then DemoLeads("lead_test_", 3)
      else records.value
    }

    /** get_lead; `record` is what the CRM returned, `None` when it raised. */
    function GetLead(leadId: string, record: Option<Dict>): (r: Option<Dict>)
      ensures !connected ==> r == Some(DemoLead(leadId))
      ensures connected ==> r == record
    {
      if !connected then Some(DemoLead(leadId)) else record
    }

    /** update_lead_disposition; `accepted` is whether the update went through. */
    function UpdateLeadDisposition(leadId: string, disposition: string, notes: Option<string>,
                                   callCount: Option<int>, accepted: bool): (c: Call<bool>)
      ensures !connected ==> c.request.None? && c.result
      ensures connected ==> c.request == Some(Request("Lead.update", leadId, DispositionUpdate(disposition, notes, callCount)))
                            && c.result == accepted
    {
      if !connected then Call(None, true)
      else Call(Some(Request("Lead.update", leadId, DispositionUpdate(disposition, notes, callCount))), accepted)
    }

    /** create_task; `created` is the id the CRM returned, `None` when it raised or gave none. */
    function CreateTask(leadId: string, subject: string, description: string, due: Option<string>,
                        priority: string, created: Option<string>): (c: Call<Option<string>>)
      ensures !connected ==> c.request.None? && c.result == Some("demo_task_id")
      ensures connected ==> c.request == Some(Request("Task.create", leadId, TaskData(leadId, subject, description, due, priority)))
                            && c.result == created
    {
      if !connected then Call(None, Some("demo_task_id"))
      else Call(Some(Request("Task.create", leadId, TaskData(leadId, subject, description, due, priority))), created)
    }

    /** log_call: a task with no due date and normal priority. */
    function LogCall(leadId: string, outcome: string, seconds: int, notes: string, callNumber: int,
                     created: Option<string>): (c: Call<Option<string>>)
      ensures !connected ==> c.request.None? && c.result == Some("demo_task_id")
      ensures connected ==> c.result == created && c.request == Some(Request("Task.create", leadId,
        TaskData(leadId, LogCallSubject(callNumber, outcome), LogCallDescription(outcome, seconds, notes, callNumber), None, "Normal")))
    {
      CreateTask(leadId, LogCallSubject(callNumber, outcome),
                 LogCallDescription(outcome, seconds, notes, callNumber), None, "Normal", created)
    }

    /** log_demo_activity with the log persisted; a name with no words raises
        before anything is written. */
    method LogDemoActivity(name: string, status: string, company: string, notes: string,
                           recordingUrl: Option<string>, now: string) returns (ok: bool)
      modifies this
      ensures ok <==> Words(name) != []
      ensures ok ==> Some(demoActivityLog) == LogDemo(old(demoLogFile), name, status, company, notes, recordingUrl, now)
      ensures ok ==> demoLogFile == Holds(demoActivityLog)
      ensures !ok ==> demoLogFile == old(demoLogFile) && demoActivityLog == old(demoActivityLog)
    {
      var current := ReadLog(demoLogFile);
      var entry := NewEntry(|current|, name, status, company, notes, recordingUrl, now);
      if entry.None? {
        return false;
      }
      current := Prepend(current, entry.value);
      demoLogFile := Holds(current);
      demoActivityLog := current;
      ok := true;
    }

    /** get_recent_leads; `records` is what the query returned (`None` when
        it raised) and `age` the minutes elapsed since a timestamp. */
    function GetRecentLeads(limit: int, records: Option<seq<Dict>>, age: Value -> Option<int>): (leads: seq<Dict>)
      reads this
      ensures var log := EntryDicts(ReadLog(demoLogFile));
        (!connected && limit > 0 && log != [] ==> leads == log[..Min(limit, |log|)])
        && (!connected && (limit == 0 || log == []) ==> leads == [DemoLead("d1"), DemoLead("d2"), DemoLead("d3")])
        && (connected && records.None? ==> leads == Take(log, limit))
        && (connected && records.Some? && (exists i :: 0 <= i < |records.value| && "LastModifiedDate" !in records.value[i])
            ==> leads == Take(log, limit))
        && (connected && limit >= 0 ==> |leads| <= limit)
      ensures var log := EntryDicts(ReadLog(demoLogFile));
        connected && records.Some? && limit >= 0
        && (forall i :: 0 <= i < |records.value| ==> "LastModifiedDate" in records.value[i]) ==>
          var d := Min(limit, |log|);
          |leads| == Min(limit, d + |records.value|)
          && leads[..d] == log[..d]
          && (forall i :: d <= i < |leads| ==> leads[i] == Enrich(records.value[i - d], age))
    {
      RecentLeadsFrom(connected, EntryDicts(ReadLog(demoLogFile)), limit, records, age)
    }

    /** get_recent_leads as written: the demo log always reads as empty, so
        offline it always gives the three demo leads, and connected it gives
        the enriched records alone, or nothing when the query fails. */
    function GetRecentLeadsAsWritten(limit: int, records: Option<seq<Dict>>, age: Value -> Option<int>)
      : (leads: seq<Dict>)
      reads this
      ensures !connected ==> leads == [DemoLead("d1"), DemoLead("d2"), DemoLead("d3")]
      ensures connected && records.None? ==> leads == []
      ensures connected && records.Some? && limit >= 0
              && (forall i :: 0 <= i < |records.value| ==> "LastModifiedDate" in records.value[i])
              ==> leads == Take(EnrichAll(records.value, age), limit)
    {
      RecentLeadsFrom(connected, EntryDicts(ReadLogAsWritten(demoLogFile)), limit, records, age)
    }

    /** Connected, with every record holding a modification date, the
        result is the logged entries cut to `limit` followed by the enriched
        records, cut to `limit`; MergedOrder gives its order and contents. */
    lemma RecentLeadsConnected(limit: nat, records: seq<Dict>, age: Value -> Option<int>)
      requires connected
      requires forall i :: 0 <= i < |records| ==> "LastModifiedDate" in records[i]
      ensures GetRecentLeads(limit, Some(records), age)
              == Take(Take(EntryDicts(ReadLog(demoLogFile)), limit) + EnrichAll(records, age), limit)
    {
      assert !exists i :: 0 <= i < |records| && "LastModifiedDate" !in records[i];
    }
  }
}
