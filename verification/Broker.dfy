/**
 The Git broker's shared maps (internal/git/broker.go): operations prepared for
 execution, prompts waiting for a decision, and operations still running.  Every
 method below is one critical section of the broker's mutex, proved against a
 function on the maps' value; `PushProtocol` interleaves those functions freely.
 */
module Broker {
  import opened Wrappers
  import opened PushStatus

  datatype Request = Request(
    capability: Capability,
    action: Action,
    environment: string,
    instance: string,
    resource: string,
    attributes: Attributes)

  datatype Decision = Decision(approved: bool, save: string)

  datatype Policy = Allow | Deny | RequireApproval

  datatype Failure = NotFound | Unsupported | InvalidChoice

  /** A prompt's reusable scope and the channel its decision is sent on. */
  datatype Prompt = Prompt(scope: Option<Request>, channel: nat)

  /** A decision channel with room for one value, and how many sends it has ever taken. */
  datatype Channel = Channel(buffer: seq<Decision>, sends: nat)

  const CAPACITY := 1

  datatype Maps = Maps(
    operations: map<string, Request>,
    pending: map<string, Prompt>,
    active: set<string>,
    channels: seq<Channel>)

  const EMPTY := Maps(map[], map[], {}, [])

  /** `perform` registers an operation before it asks the capability service. */
  function Prepared(m: Maps, id: string, request: Request): Maps {
    m.(operations := m.operations[id := request], active := m.active + {id})
  }

  /** The guard of `Execute`: a prepared operation, its own context, the identical request. */
  predicate Admits(m: Maps, context: Option<string>, request: Request) {
    var id := Attr(request.attributes, OperationId);
    id in m.operations && context == Some(id) && request == m.operations[id]
  }

  function Claimed(m: Maps, request: Request): Maps {
    m.(operations := m.operations - {Attr(request.attributes, OperationId)})
  }

  /** `decide` publishes a prompt with a channel of its own. */
  function Prompted(m: Maps, id: string, scope: Option<Request>): Maps {
    m.(pending := m.pending[id := Prompt(scope, |m.channels|)], channels := m.channels + [Channel([], 0)])
  }

  /** Why `submitDecision` refuses, if it does; a saved choice must agree with the answer it comes with. */
  function Refusal(m: Maps, id: string, decision: Decision,
          rule: (Request, string) -> Option<Policy>): Option<Failure> {
    if id !in m.pending then Some(NotFound)
    else if decision.save == "" then None
    else if m.pending[id].scope.None? then Some(Unsupported)
    else
      match rule(m.pending[id].scope.value, decision.save)
      case None => Some(InvalidChoice)
      case Some(p) => if p != RequireApproval && (p == Allow) != decision.approved then Some(InvalidChoice) else None
  }

  function Send(c: Channel, decision: Decision): Channel {
    Channel(c.buffer + [decision], c.sends + 1)
  }

  function Decided(m: Maps, id: string, decision: Decision): Maps
    requires id in m.pending && m.pending[id].channel < |m.channels|
  {
    var k := m.pending[id].channel;
    m.(pending := m.pending - {id}, channels := m.channels[k := Send(m.channels[k], decision)])
  }

  function Heard(m: Maps, k: nat): Maps
    requires k < |m.channels| && m.channels[k].buffer != []
  {
    m.(channels := m.channels[k := m.channels[k].(buffer := m.channels[k].buffer[1..])])
  }

  /** The deferred cleanup of `perform`. */
  function Returned(m: Maps, id: string): Maps {
    m.(operations := m.operations - {id}, pending := m.pending - {id}, active := m.active - {id})
  }

  /**
   Every published prompt has its own channel, and nothing was ever sent on it; a
   channel takes at most one send in its life and so never exceeds its capacity.
   */
  ghost predicate Coherent(m: Maps) {
    && (forall id :: id in m.pending ==>
            m.pending[id].channel < |m.channels| && m.channels[m.pending[id].channel].sends == 0)
    && (forall a, b :: a in m.pending && b in m.pending && a != b ==> m.pending[a].channel != m.pending[b].channel)
    && (forall k :: 0 <= k < |m.channels| ==> |m.channels[k].buffer| <= m.channels[k].sends <= CAPACITY)
  }

  lemma PromptedCoherent(m: Maps, id: string, scope: Option<Request>)
    requires Coherent(m)
    ensures Coherent(Prompted(m, id, scope))
  {
    var p := Prompted(m, id, scope);
    assert forall x :: x in p.pending && x != id ==> p.pending[x] == m.pending[x];
    assert forall j :: 0 <= j < |m.channels| ==> p.channels[j] == m.channels[j];
  }

  lemma DecidedCoherent(m: Maps, id: string, decision: Decision)
    requires Coherent(m) && id in m.pending
    ensures Coherent(Decided(m, id, decision))
  {
    var d := Decided(m, id, decision);
    var k := m.pending[id].channel;
    assert forall x :: x in d.pending ==> x in m.pending && d.pending[x] == m.pending[x] && x != id;
    assert forall j :: 0 <= j < |m.channels| && j != k ==> d.channels[j] == m.channels[j];
    assert d.channels[k] == Send(m.channels[k], decision);
  }

  lemma HeardCoherent(m: Maps, k: nat)
    requires Coherent(m) && k < |m.channels| && m.channels[k].buffer != []
    ensures Coherent(Heard(m, k))
  {
    var d := Heard(m, k);
    assert forall j :: 0 <= j < |m.channels| && j != k ==> d.channels[j] == m.channels[j];
    assert forall x :: x in d.pending ==>
             d.channels[d.pending[x].channel].sends == m.channels[m.pending[x].channel].sends;
  }

  class Broker {
    var operations: map<string, Request>
    var pending: map<string, Prompt>
    var active: set<string>
    var channels: seq<Channel>

    ghost function View(): Maps
      reads this
    {
      Maps(operations, pending, active, channels)
    }

    ghost predicate Valid()
      reads this
    {
      Coherent(View())
    }

    constructor ()
      ensures Valid() && View() == EMPTY
    {
      operations, pending, active, channels := map[], map[], {}, [];
    }

    method Prepare(id: string, request: Request)
      requires Valid()
      modifies this
      ensures Valid() && View() == Prepared(old(View()), id, request)
    {
      operations := operations[id := request];
      active := active + {id};
    }

    /** The critical section of `Execute`. */
    method Execute(context: Option<string>, request: Request) returns (ok: bool)
      requires Valid()
      modifies this
      ensures ok == Admits(old(View()), context, request)
      ensures Valid() && View() == if ok then Claimed(old(View()), request) else old(View())
    {
      var id := Attr(request.attributes, OperationId);
      ok := id in operations && context == Some(id) && request == operations[id];
      if ok {
        operations := operations - {id};
      }
    }

    /** Publish a prompt from inside `perform`. */
    method Ask(id: string, scope: Option<Request>) returns (channel: nat)
      requires Valid()
      modifies this
      ensures Valid() && View() == Prompted(old(View()), id, scope) && channel == |old(channels)|
    {
      channel := |channels|;
      PromptedCoherent(View(), id, scope);
      pending := pending[id := Prompt(scope, channel)];
      channels := channels + [Channel([], 0)];
    }

    /** `submitDecision`: on refusal nothing changes; otherwise the prompt goes and its channel takes the decision. */
    method SubmitDecision(id: string, decision: Decision, rule: (Request, string) -> Option<Policy>)
      returns (r: Result<nat, Failure>)
      requires Valid()
      modifies this
      ensures r.Err? <==> Refusal(old(View()), id, decision, rule).Some?
      ensures r.Err? ==> View() == old(View()) && Some(r.error) == Refusal(old(View()), id, decision, rule)
      ensures r.Ok? ==> id in old(pending) && r.value == old(pending)[id].channel && r.value < |old(channels)|
      ensures r.Ok? ==> |old(channels)[r.value].buffer| < CAPACITY  // the send found room
      ensures r.Ok? ==> View() == Decided(old(View()), id, decision)
      ensures Valid()
    {
      if id !in pending {
        return Err(NotFound);
      }
      var prompt := pending[id];
      if decision.save != "" {
        if prompt.scope.None? {
          return Err(Unsupported);
        }
        var policy := rule(prompt.scope.value, decision.save);
        if policy.None? {
          return Err(InvalidChoice);
        }
        if policy.value != RequireApproval && (policy.value == Allow) != decision.approved {
          return Err(InvalidChoice);
        }
      }
      DecidedCoherent(View(), id, decision);
      var k := prompt.channel;
      pending := pending - {id};
      channels := channels[k := Send(channels[k], decision)];
      r := Ok(k);
    }

    method Return(id: string)
      requires Valid()
      modifies this
      ensures Valid() && View() == Returned(old(View()), id)
      ensures id !in operations && id !in pending && id !in active
    {
      operations := operations - {id};
      pending := pending - {id};
      active := active - {id};
    }
  }
}
