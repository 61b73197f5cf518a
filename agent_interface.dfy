/** Agent task receipts and counters (core/agent_interface.py).  Identifiers
    and timestamps that the source draws from the clock or a random UUID are
    parameters. */
module AgentInterface {
  import opened Base
  import opened Text

  datatype AgentCard = AgentCard(uuid: string, name: string, description: string, version: string,
                                 capabilities: seq<string>)

  datatype TaskRequest = TaskRequest(requesterId: string, content: string, taskId: string,
                                     context: Dict, headers: map<string, string>)

  datatype TaskResponse = TaskResponse(taskId: string, responderId: string, status: string, output: string,
                                       artifacts: seq<string>, timestamp: string, headers: map<string, string>)
  {
    /** to_receipt: `RCPT:<responder>:<task>:<status>:<length of output>b` */
    function ToReceipt(): (s: string)
      ensures |s| > 6 && s[..5] == "RCPT:" && s[|s| - 1] == 'b'
    {
      "RCPT:" + responderId + ":" + taskId + ":" + status + ":" + NatToString(|output|) + "b"
    }
  }

  /** The fields a receipt carries. */
  datatype ReceiptFields = ReceiptFields(responderId: string, taskId: string, status: string, outputLength: nat)

  /** Reads a receipt back: five colon-separated pieces, the first "RCPT",
      the last a decimal length followed by "b". */
  function ParseReceipt(s: string): (r: Option<ReceiptFields>)
  {
    var parts := SplitOn(s, ':');
    if |parts| == 5 && parts[0] == "RCPT" && |parts[4]| >= 1 && parts[4][|parts[4]| - 1] == 'b'
       && ParseNat(parts[4][..|parts[4]| - 1]).Some?
    then Some(ReceiptFields(parts[1], parts[2], parts[3], ParseNat(parts[4][..|parts[4]| - 1]).value))
    else None
  }

  predicate NoColon(s: string) {
    forall i :: 0 <= i < |s| ==> s[i] != ':'
  }

  /** Splitting at the colon after a colon-free head gives the head and then
      the pieces of the rest. */
  lemma Peel(x: string, rest: string)
    requires NoColon(x)
    ensures var p := SplitOn(x + [':'] + rest, ':'); var q := SplitOn(rest, ':');
      |p| == |q| + 1 && p[0] == x && forall k :: 0 <= k < |q| ==> p[k + 1] == q[k]
  {
    SplitOnCons(x, ':', rest);
  }

  lemma SplitTwo(d: string, e: string)
    requires NoColon(d) && NoColon(e)
    ensures var p := SplitOn(d + [':'] + e, ':');
      |p| == 2 && p[0] == d && p[1] == e
  {
    SplitOnNone(e, ':');
    Peel(d, e);
  }

  lemma SplitThree(c: string, d: string, e: string)
    requires NoColon(c) && NoColon(d) && NoColon(e)
    ensures var p := SplitOn(c + [':'] + (d + [':'] + e), ':');
      |p| == 3 && p[0] == c && p[1] == d && p[2] == e
  {
    SplitTwo(d, e);
    Peel(c, d + [':'] + e);
  }

  lemma SplitFour(b: string, c: string, d: string, e: string)
    requires NoColon(b) && NoColon(c) && NoColon(d) && NoColon(e)
    ensures var p := SplitOn(b + [':'] + (c + [':'] + (d + [':'] + e)), ':');
      |p| == 4 && p[0] == b && p[1] == c && p[2] == d && p[3] == e
  {
    SplitThree(c, d, e);
    Peel(b, c + [':'] + (d + [':'] + e));
  }

  /** Splitting five colon-free pieces joined by colons gives them back. */
  lemma SplitFive(a: string, b: string, c: string, d: string, e: string)
    requires NoColon(a) && NoColon(b) && NoColon(c) && NoColon(d) && NoColon(e)
    ensures var p := SplitOn(a + [':'] + (b + [':'] + (c + [':'] + (d + [':'] + e))), ':');
      |p| == 5 && p[0] == a && p[1] == b && p[2] == c && p[3] == d && p[4] == e
  {
    SplitFour(b, c, d, e);
    Peel(a, b + [':'] + (c + [':'] + (d + [':'] + e)));
  }

  /** The length piece of a receipt: the digits of `n` and a `b`. */
  lemma LengthPiece(n: nat)
    ensures NoColon(NatToString(n) + "b")
    ensures ParseNat((NatToString(n) + "b")[..|NatToString(n) + "b"| - 1]) == Some(n)
  {
    var d := NatToString(n);
    var last := d + "b";
    forall i | 0 <= i < |last| ensures last[i] != ':' {
      if i < |d| { assert IsDigit(d[i]); }
    }
    assert last[..|last| - 1] == d;
    NatToStringRoundTrip(n);
  }

  /** A receipt determines the responder, the task, the status and the
      output length, provided the first three contain no colon. */
  lemma ReceiptRoundTrip(r: TaskResponse)
    requires NoColon(r.responderId) && NoColon(r.taskId) && NoColon(r.status)
    ensures ParseReceipt(r.ToReceipt()) == Some(ReceiptFields(r.responderId, r.taskId, r.status, |r.output|))
  {
    var last := NatToString(|r.output|) + "b";
    LengthPiece(|r.output|);
    var s := r.ToReceipt();
    assert s == "RCPT" + [':'] + (r.responderId + [':'] + (r.taskId + [':'] + (r.status + [':'] + last)));
    SplitFive("RCPT", r.responderId, r.taskId, r.status, last);
  }

  /** Receipts of two responses with colon-free fields are equal only when
      responder, task, status and output length agree. */
  lemma ReceiptsDistinguish(a: TaskResponse, b: TaskResponse)
    requires NoColon(a.responderId) && NoColon(a.taskId) && NoColon(a.status)
    requires NoColon(b.responderId) && NoColon(b.taskId) && NoColon(b.status)
    requires a.ToReceipt() == b.ToReceipt()
    ensures a.responderId == b.responderId && a.taskId == b.taskId && a.status == b.status
    ensures |a.output| == |b.output|
  {
    ReceiptRoundTrip(a);
    ReceiptRoundTrip(b);
  }

  datatype AgentStats = AgentStats(messagesSent: int, messagesReceived: int, tasksCompleted: int)

  class BaseAgent {
    const card: AgentCard
    var stats: AgentStats

    /** `BaseAgent(name, description, capabilities)`; `uuid` is the generated id. */
    constructor (uuid: string, name: string, description: string, capabilities: Option<seq<string>>)
      ensures card == AgentCard(uuid, name, description, "1.0.0",
                                if capabilities.Some? then capabilities.value else [])
      ensures stats == AgentStats(0, 0, 0)
    {
      card := AgentCard(uuid, name, description, "1.0.0", if capabilities.Some? then capabilities.value else []);
      stats := AgentStats(0, 0, 0);
    }

    /** sign_off_task: a response to `request`, signed with the agent's name. */
    method SignOffTask(request: TaskRequest, status: string, output: string, timestamp: string)
      returns (r: TaskResponse)
      modifies this
      ensures r.taskId == request.taskId && r.headers == request.headers && r.responderId == card.name
      ensures r.status == status && r.output == output && r.artifacts == []
      ensures stats == old(stats).(tasksCompleted := old(stats).tasksCompleted + 1)
    {
      r := TaskResponse(request.taskId, card.name, status, output, [], timestamp, request.headers);
      stats := stats.(tasksCompleted := stats.tasksCompleted + 1);
    }

    /** create_ad_hoc_receipt (the source's default status is "completed");
        `stamp` is the timestamp text in the task id. */
    method CreateAdHocReceipt(action: string, details: string, status: string, stamp: string, timestamp: string)
      returns (r: TaskResponse)
      modifies this
      ensures r.taskId == "adhoc_" + stamp && r.responderId == card.name && r.status == status
      ensures r.output == "ACTION:" + action + " DETAILS:" + details
      ensures r.headers == map["x-a2a-type" := "ADHOC_RECEIPT"]
      ensures stats == old(stats).(tasksCompleted := old(stats).tasksCompleted + 1)
    {
      r := TaskResponse("adhoc_" + stamp, card.name, status, "ACTION:" + action + " DETAILS:" + details, [],
                        timestamp, map["x-a2a-type" := "ADHOC_RECEIPT"]);
      stats := stats.(tasksCompleted := stats.tasksCompleted + 1);
    }
  }

  /** A new agent that signs off one request and issues one ad hoc receipt
      has completed two tasks and sent and received nothing; the signed-off
      response carries the request's id. */
  method TwoTasksScenario(request: TaskRequest) returns (completed: int, sent: int, received: int, taskId: string)
    ensures completed == 2 && sent == 0 && received == 0 && taskId == request.taskId
  {
    var agent := new BaseAgent("agent-uuid", "Closer", "Books appointments", None);
    var r := agent.SignOffTask(request, "completed", "done", "t0");
    var _ := agent.CreateAdHocReceipt("call", "lead called", "completed", "1", "t1");
    completed := agent.stats.tasksCompleted;
    sent := agent.stats.messagesSent;
    received := agent.stats.messagesReceived;
    taskId := r.taskId;
  }
}
