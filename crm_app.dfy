/** Lead sync, follow-up tasks and the touch cadence (core/salesforce_app.py),
    on top of the CRM client.  The clock is an input: a due time is one of
    three offsets from now, and `dayOf` renders it as the task's due date. */
module CrmApp {
  import opened Base
  import opened Text
  import Leads
  import opened Crm

  // ---------------------------------------------------------------------------
  // Lead sync (sync_lead_to_model)
  // ---------------------------------------------------------------------------

  /** `f"{FirstName} {LastName}".strip()`, the name used when the record has no `Name`. */
  function JoinedName(rec: Dict): string {
    Strip(Show(Get(rec, "FirstName", Str(""))) + " " + Show(Get(rec, "LastName", Str(""))))
  }

  /** The name: the record's `Name` when it has one, the joined first and last name otherwise. */
  function NameField(rec: Dict): (v: Value)
    ensures "Name" in rec ==> v == rec["Name"]
    ensures "Name" !in rec ==> v == Str(JoinedName(rec))
  {
    if "Name" in rec then rec["Name"] else Str(JoinedName(rec))
  }

  /** `Phone or MobilePhone` */
  function PhoneField(rec: Dict): (v: Value)
    ensures Truthy(Get(rec, "Phone", Null)) ==> v == rec["Phone"]
    ensures !Truthy(Get(rec, "Phone", Null)) ==> v == Get(rec, "MobilePhone", Null)
  {
    Or(Get(rec, "Phone", Null), Get(rec, "MobilePhone", Null))
  }

  /** The lead-model keyword arguments, given their values: six fields and
      the fixed source tag, and nothing for notes, score, do-not-call or the
      timestamps. */
  function SyncFields(id: Value, name: Value, email: Value, phone: Value, company: Value, status: Value): (d: Dict)
    ensures d.Keys == {"id", "name", "email", "phone", "company", "status", "source"}
    ensures d["id"] == id && d["name"] == name && d["email"] == email && d["phone"] == phone
    ensures d["company"] == company && d["status"] == status && d["source"] == Str("salesforce_sync")
    ensures "notes" !in d && "score" !in d && "do_not_call" !in d && "created_at" !in d && "updated_at" !in d
  {
    map["id" := id, "name" := name, "email" := email, "phone" := phone, "company" := company,
        "status" := status, "source" := Str("salesforce_sync")]
  }

  /** The keyword arguments sync_lead_to_model passes to the lead model. */
  function MappedFields(rec: Dict): Dict {
    SyncFields(Get(rec, "Id", Null), NameField(rec), Get(rec, "Email", Null), PhoneField(rec),
               Get(rec, "Company", Str("Mortgage Services")), Get(rec, "Status", Str("new")))
  }

  /** sync_lead_to_model: the lead model built from a CRM record, or the
      validation error it raises (an empty name, a status that is not a string). */
  function SyncLeadToModel(rec: Dict, now: string): (r: Result<Leads.Lead, ValidationError>)
    ensures r == Leads.ValidateLead(MappedFields(rec), now)
    ensures r.Ok? ==> r.value.source == "salesforce_sync" && |r.value.name| >= 1
    ensures r.Ok? ==> Str(r.value.name) == NameField(rec)
    ensures r.Ok? ==> r.value.status == (if "Status" in rec then rec["Status"].s else "new")
    ensures r.Ok? ==> !r.value.doNotCall && r.value.score == 0
  {
    Leads.ValidateLead(MappedFields(rec), now)
  }

  /** A record without `Name` and with neither first nor last name is rejected. */
  lemma SyncRejectsNamelessRecord(rec: Dict, now: string)
    requires "Name" !in rec && "FirstName" !in rec && "LastName" !in rec
    ensures SyncLeadToModel(rec, now).Err?
  {
    var joined := Show(Get(rec, "FirstName", Str(""))) + " " + Show(Get(rec, "LastName", Str("")));
    assert joined == " ";
    assert StripLeft(joined) == "" by { assert joined[1..] == ""; }
    assert NameField(rec) == Str("");
    assert !Leads.NameOk(MappedFields(rec));
  }

  /** The CRM's demo lead syncs to "Demo User" of "Demo Company", with its phone. */
  lemma SyncDemoLead(id: string, now: string)
    ensures var r := SyncLeadToModel(DemoLead(id), now);
      r.Ok? && r.value.name == "Demo User" && r.value.company == Some("Demo Company")
      && r.value.phone == Some("+1-555-123-4567") && r.value.id == Some(id)
      && r.value.status == "Open - Not Contacted"
  {
    var rec := DemoLead(id);
    DemoLeadName(id);
    assert PhoneField(rec) == Str("+1-555-123-4567");
    StringFieldsValidate(id, "Demo User", "demo@example.com", "+1-555-123-4567", "Demo Company",
                         "Open - Not Contacted", now);
  }

  /** String-valued arguments with a non-empty name validate, and the lead
      carries them. */
  lemma StringFieldsValidate(id: string, name: string, email: string, phone: string, company: string,
                             status: string, now: string)
    requires |name| >= 1
    ensures var r := Leads.ValidateLead(SyncFields(Str(id), Str(name), Str(email), Str(phone), Str(company),
                                                   Str(status)), now);
      r.Ok? && r.value.name == name && r.value.id == Some(id) && r.value.phone == Some(phone)
      && r.value.company == Some(company) && r.value.status == status
  {
    var d := SyncFields(Str(id), Str(name), Str(email), Str(phone), Str(company), Str(status));
    assert Leads.FieldErrors(d) == [];
  }

  lemma DemoLeadName(id: string)
    ensures NameField(DemoLead(id)) == Str("Demo User")
  {
    var rec := DemoLead(id);
    var joined := Show(Str("Demo")) + " " + Show(Str("User"));
    assert joined == "Demo User";
    StripTrimmed(joined);
  }

  // ---------------------------------------------------------------------------
  // Follow-up tasks (orchestrate_task_from_disposition)
  // ---------------------------------------------------------------------------

  const AppointmentSubject := "\U{1F525} ACTION REQUIRED: Appointment Booked via AI"
  const CallbackSubject := "\U{1F4C5} Follow-up: Call Requested"

  /** When the task falls due, counted from the moment it is created. */
  datatype Due = Now | InOneHour | InOneDay

  datatype FollowUp = FollowUp(subject: string, priority: string, due: Due)

  predicate MentionsAppointment(disposition: string) {
    Contains(Upper(disposition), "APPOINTMENT")
  }

  predicate MentionsCallback(disposition: string) {
    Contains(Upper(disposition), "CALLBACK")
  }

  /** The follow-up rule: an appointment wins over a callback. */
  function FollowUpFor(disposition: string): (f: FollowUp)
    ensures f.priority == "High" <==> MentionsAppointment(disposition)
    ensures f.priority == "Normal" <==> !MentionsAppointment(disposition)
    ensures f.due == InOneHour <==> MentionsAppointment(disposition)
    ensures f.due == InOneDay <==> !MentionsAppointment(disposition) && MentionsCallback(disposition)
    ensures f.due == Now <==> !MentionsAppointment(disposition) && !MentionsCallback(disposition)
    ensures f.due == InOneHour ==> f.subject == AppointmentSubject
    ensures f.due == InOneDay ==> f.subject == CallbackSubject
    ensures f.due == Now ==> f.subject == "AI Follow-up: " + disposition
  {
    if MentionsAppointment(disposition) then FollowUp(AppointmentSubject, "High", InOneHour)
    else if MentionsCallback(disposition) then FollowUp(CallbackSubject, "Normal", InOneDay)
    else FollowUp("AI Follow-up: " + disposition, "Normal", Now)
  }

  lemma UpperLower(s: string)
    ensures Upper(Lower(s)) == Upper(s)
  {
    assert forall i :: 0 <= i < |s| ==> Upper(Lower(s))[i] == Upper(s)[i];
  }

  /** The rule ignores letter case: a lower-cased disposition gets the same
      priority and due time. */
  lemma FollowUpIgnoresCase(disposition: string)
    ensures FollowUpFor(Lower(disposition)).priority == FollowUpFor(disposition).priority
    ensures FollowUpFor(Lower(disposition)).due == FollowUpFor(disposition).due
  {
    UpperLower(disposition);
  }

  /** orchestrate_task_from_disposition: the follow-up task, created through the client. */
  function OrchestrateTaskFromDisposition(sf: SalesforceClient, leadId: string, disposition: string, notes: string,
                                          dayOf: Due -> string, created: Option<string>): (c: Call<Option<string>>)
    ensures var f := FollowUpFor(disposition);
      c == sf.CreateTask(leadId, f.subject, "Automated AI Disposition: " + notes, Some(dayOf(f.due)), f.priority, created)
    ensures !sf.connected ==> c.result == Some("demo_task_id")
    ensures sf.connected ==>
      (c.result == created
       && c.request.value.fields["Description"] == Str("Automated AI Disposition: " + notes)
       && c.request.value.fields["Priority"] == Str(if MentionsAppointment(disposition) then "High" else "Normal"))
  {
    var f := FollowUpFor(disposition);
    sf.CreateTask(leadId, f.subject, "Automated AI Disposition: " + notes, Some(dayOf(f.due)), f.priority, created)
  }

  // ---------------------------------------------------------------------------
  // Touch cadence (trigger_cadence_step)
  // ---------------------------------------------------------------------------

  /** trigger_cadence_step: records the next step number on the lead;
      `accepted` is whether the CRM update went through. */
  function TriggerCadenceStep(sf: SalesforceClient, leadId: string, currentStep: int, now: string, accepted: bool)
    : (c: Call<bool>)
    ensures !sf.connected ==> c.request.None? && c.result
    ensures sf.connected ==>
      (c.result == accepted && c.request.Some?
       && c.request.value.operation == "Lead.update" && c.request.value.target == leadId
       && c.request.value.fields.Keys == {"Current_Cadence_Step__c", "Last_AI_Interaction__c"}
       && c.request.value.fields["Current_Cadence_Step__c"] == Int(currentStep + 1)
       && c.request.value.fields["Last_AI_Interaction__c"] == Str(now))
  {
    if !sf.connected then Call(None, true)
    else Call(Some(Request("Lead.update", leadId,
      map["Current_Cadence_Step__c" := Int(currentStep + 1), "Last_AI_Interaction__c" := Str(now)])), accepted)
  }
}
