/** Follow-up channel dispatch (core/comm_orchestrator.py).  The send
    operations are stubs that only log; the model returns which channel
    execute_action invokes and with which arguments. */
module CommOrchestrator {
  import opened Base

  /** The send call execute_action makes, if any. */
  datatype Dispatch =
    | Sms(to: Value, message: Value)
    | Email(to: Value, subject: Value, body: Value)
    | Mail(address: Value, template: Value)
    | NoDispatch

  const DefaultAddress := "123 Beta St, AI City, WA"

  /** execute_action: at most one channel, chosen by the action type, and
      SMS or e-mail only when the lead has a non-empty phone or e-mail. */
  function ExecuteAction(actionType: string, payload: Dict, leadContext: Dict): (d: Dispatch)
    ensures d.Sms? <==> actionType == "send_sms" && Truthy(Get(leadContext, "phone", Null))
    ensures d.Email? <==> actionType == "send_email" && Truthy(Get(leadContext, "email", Null))
    ensures d.Mail? <==> actionType == "send_physical_mail"
    ensures d.NoDispatch? <==>
      (!(actionType in {"send_sms", "send_email", "send_physical_mail"})
       || (actionType == "send_sms" && !Truthy(Get(leadContext, "phone", Null)))
       || (actionType == "send_email" && !Truthy(Get(leadContext, "email", Null))))
    ensures d.Sms? ==> d.to == leadContext["phone"] && d.message == Get(payload, "message", Str(""))
    ensures d.Email? ==> d.to == leadContext["email"] && d.subject == Get(payload, "subject", Str(""))
                         && d.body == Get(payload, "body", Str(""))
    ensures d.Mail? ==> d.address == Get(leadContext, "address", Str(DefaultAddress))
                        && d.template == Get(payload, "template", Str("Default"))
  {
    var toPhone := Get(leadContext, "phone", Null);
    var toEmail := Get(leadContext, "email", Null);
    var toAddress := Get(leadContext, "address", Str(DefaultAddress));
    if actionType == "send_sms" && Truthy(toPhone) then Sms(toPhone, Get(payload, "message", Str("")))
    else if actionType == "send_email" && Truthy(toEmail) then
      Email(toEmail, Get(payload, "subject", Str("")), Get(payload, "body", Str("")))
    else if actionType == "send_physical_mail" then Mail(toAddress, Get(payload, "template", Str("Default")))
    else NoDispatch
  }

  /** The one way a send stub fails: send_sms slices the message for its
      log line, and slicing None, an int or a bool raises TypeError. */
  datatype SendError = TypeError

  /** send_sms, send_email and send_physical_mail: each stub reports success,
      except that send_sms raises on a message that is not a string. */
  function Send(d: Dispatch): (r: Result<bool, SendError>)
    requires !d.NoDispatch?
    ensures r.Err? <==> d.Sms? && !d.message.Str?
    ensures r.Ok? ==> r.value
  {
    match d
    case Sms(_, message) => if message.Str? then Ok(true) else Err(TypeError)
    case Email(_, _, _) => Ok(true)
    case Mail(_, _) => Ok(true)
  }

  /** execute_action raises exactly when it sends an SMS whose payload
      carries a message that is not a string; a missing message is sent as "". */
  lemma SmsMessageMustBeText(payload: Dict, leadContext: Dict)
    requires Truthy(Get(leadContext, "phone", Null))
    ensures var d := ExecuteAction("send_sms", payload, leadContext);
      d.Sms? && (Send(d).Err? <==> "message" in payload && !payload["message"].Str?)
  {
  }

  /** An SMS action whose payload message is null raises. */
  lemma NullMessageRaises()
    ensures Send(ExecuteAction("send_sms", map["message" := Null], map["phone" := Str("+1")])) == Err(TypeError)
  {
    var d := ExecuteAction("send_sms", map["message" := Null], map["phone" := Str("+1")]);
    assert d == Sms(Str("+1"), Null);
  }

  /** Physical mail goes out even for a lead with no contact details, to the
      default address and with the default template. */
  lemma MailNeedsNoContact(payload: Dict)
    requires "template" !in payload
    ensures ExecuteAction("send_physical_mail", payload, map[]) == Mail(Str(DefaultAddress), Str("Default"))
  {
  }
}
