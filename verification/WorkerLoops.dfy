/** The loops of the worker's two sides as they run on one side, each against what it computes from the messages and
    readings it meets; and the parent's fields, updated in place as its steps update the protocol's state. */
module WorkerLoops {
  import opened WorkerProtocol

  datatype Option<T> = None | Some(value: T)

  function Events(items: seq<Item>): seq<Body> {
    seq(|items|, i requires 0 <= i < |items| => Event(items[i]))
  }

  /** The child stops taking items at the first look at the cell that finds its own generation, looks counting
      from 0. */
  ghost predicate StopsAt(items: seq<Item>, looks: nat -> bool, n: nat) {
    n <= |items| && (forall j :: 0 <= j < n ==> !looks(j)) && (n < |items| ==> looks(n))
  }

  /** What the child queues for a stream of which it took `kept`: repaired unless it was cut, cancelled at the end, or
      terminal already; and closed, with an error if the engine raised. */
  function Queued(kept: seq<Item>, cut: bool, raised: bool): seq<Body> {
    if raised then Events(kept) + [Error]
    else Events(if cut then kept else Repaired(kept)) + [Done]
  }

  lemma AudioGrows(items: seq<Item>, item: Item)
    ensures CountAudio(items + [item]) == CountAudio(items) + AudioWeight(item)
    ensures HasTerminal(items + [item]) <==> HasTerminal(items) || IsTerminal(item)
    ensures Events(items + [item]) == Events(items) + [Event(item)]
  {
    var more := items + [item];
    assert more[..|more| - 1] == items;
    assert forall i :: 0 <= i < |items| ==> more[i] == items[i];
    if IsTerminal(item) { assert IsTerminal(more[|items|]); }
    if HasTerminal(items) {
      var j :| 0 <= j < |items| && IsTerminal(items[j]);
      assert IsTerminal(more[j]);
    }
  }

  lemma RepairedEvents(items: seq<Item>)
    requires !HasTerminal(items)
    ensures Events(Repaired(items))
         == Events(items) + [Event(Dict(SegmentErrorKind, 0))] + [Event(Dict(DoneKind, CountAudio(items)))]
  {
    var one := items + [Dict(SegmentErrorKind, 0)];
    AudioGrows(items, Dict(SegmentErrorKind, 0));
    AudioGrows(one, Dict(DoneKind, CountAudio(items)));
    assert one + [Dict(DoneKind, CountAudio(items))] == Repaired(items);
  }

  /** The loop over the engine's items: what it queues, whether a terminal event was among it, how many were audio, and
      how many items were taken before the loop ended or was cut. */
  method TakeItems(items: seq<Item>, looks: nat -> bool)
    returns (queued: seq<Body>, sawTerminal: bool, audio: nat, taken: nat, cut: bool)
    ensures StopsAt(items, looks, taken) && cut == (taken < |items|)
    ensures queued == Events(items[..taken]) && audio == CountAudio(items[..taken])
    ensures sawTerminal <==> HasTerminal(items[..taken])
  {
    queued := [];
    sawTerminal, audio, taken, cut := false, 0, 0, false;
    ghost var kept: seq<Item> := [];
    while taken < |items|
      invariant 0 <= taken <= |items| && !cut && kept == items[..taken]
      invariant forall j :: 0 <= j < taken ==> !looks(j)
      invariant queued == Events(kept) && audio == CountAudio(kept)
      invariant sawTerminal <==> HasTerminal(kept)
    {
      if looks(taken) {
        cut := true;
        break;
      }
      var item := items[taken];
      AudioGrows(kept, item);
      kept := kept + [item];
      if item.Dict? {
        audio := audio + (if item.kind == AudioKind then 1 else 0);
        sawTerminal := sawTerminal || item.kind in {DoneKind, CancelledKind, ErrorKind, SegmentErrorKind};
      }
      queued := queued + [Event(item)];
      taken := taken + 1;
    }
  }

  /** The child's stream phase: `looks(k)` is what its k-th look at the shared cell says, `raises` whether the engine
      raises when its items are used up. */
  method RunChildStreamPhase(items: seq<Item>, raises: bool, looks: nat -> bool) returns (queued: seq<Body>, taken: nat)
    ensures StopsAt(items, looks, taken)
    ensures queued == Queued(items[..taken], taken < |items| || looks(taken), taken == |items| && raises)
  {
    var sawTerminal, audio, cut;
    queued, sawTerminal, audio, taken, cut := TakeItems(items, looks);
    if !cut && raises { return queued + [Error], taken; }
    if !sawTerminal && !cut && !looks(taken) {
      RepairedEvents(items[..taken]);
      queued := queued + [Event(Dict(SegmentErrorKind, 0))];
      queued := queued + [Event(Dict(DoneKind, audio))];
    }
    queued := queued + [Done];
  }

  /** The loop stops at one place only. */
  lemma StopIsUnique(items: seq<Item>, looks: nat -> bool, m: nat, n: nat)
    requires StopsAt(items, looks, m) && StopsAt(items, looks, n)
    ensures m == n
  {
  }

  /** A stream that nobody cancels is queued whole, repaired if its engine gave no terminal event, and closed once. */
  lemma UncancelledPhase(items: seq<Item>, looks: nat -> bool, n: nat)
    requires StopsAt(items, looks, n) && forall j: nat :: !looks(j)
    ensures n == |items|
    ensures var out := Queued(items[..n], n < |items| || looks(n), false);
            out == Events(Repaired(items)) + [Done] && Closed(out) && HasTerminal(Repaired(items))
  {
    assert items[..|items|] == items;
    if !HasTerminal(items) { assert IsTerminal(Repaired(items)[|items|]); }
  }

  lemma {:induction false} OfFirst(q: seq<Msg>, id: nat)
    requires q != []
    ensures Of(q, id) == (if q[0].id == id then [q[0].body] else []) + Of(q[1..], id)
  {
    if |q| == 1 {
      assert q[..0] == [] && q[1..] == [];
    } else {
      OfFirst(q[..|q| - 1], id);
      assert q[..|q| - 1][1..] == q[1..][..|q| - 2];
      assert q[1..][|q| - 2] == q[|q| - 1];
    }
  }

  /** Looking up the receipt of a shutdown among what is left in the queue: the first message with that id, whatever
      else is there. */
  method ShutdownReply(results: seq<Msg>, id: nat) returns (reply: Option<Body>)
    ensures reply == if Of(results, id) == [] then None else Some(Of(results, id)[0])
  {
    var left := results;
    while left != []
      invariant Of(left, id) == Of(results, id)
      decreases |left|
    {
      OfFirst(left, id);
      var raw := left[0];
      left := left[1..];
      if raw.id == id { return Some(raw.body); }
    }
    return None;
  }

  // ---------- the parent's fields ----------

  /** The parent's side of the protocol as an object. The child's state is part of it only as what the parent replaces
      when it starts or kills the process. */
  class Client {
    var parent: Parent
    var generation: nat
    var flag: nat
    var child: Child
    var engineLoaded: bool
    var link: Link
    ghost var log: Log

    ghost function System(): Sys
      reads this
    {
      Sys(parent, generation, flag, child, engineLoaded, link, log)
    }

    constructor ()
      ensures System() == Initial
    {
      parent, generation, flag, child, engineLoaded := Free, 0, 0, Dead, false;
      link, log := Initial.link, Initial.log;
    }

    /** `start`: nothing if the process lives, else new queues and an empty cell. */
    method StartProcess()
      requires parent.Starting?
      modifies this
      ensures System() == ParentStep(old(System()), Start)
    {
      if !(link.open && child != Dead) {
        link := Cleared(link, true);
        flag := 0;
        child := Idle;
        engineLoaded := false;
      }
      parent := Sending(parent.req);
    }

    method SoftCancelWorker(token: nat)
      modifies this
      ensures System() == if token <= 0 then old(System()) else WriteFlag(old(System()), token)
    {
      if token <= 0 { return; }
      flag := token;
      log := log.(written := log.written + {token});
    }

    /** `close(kill=True)`. */
    method CloseByKilling()
      modifies this
      ensures System() == ParentStep(old(System()), Kill)
    {
      child := Dead;
      engineLoaded := false;
      flag := 0;
      link := Cleared(link, false);
    }

    /** Sending the command of a stream or of a call, under a new id. */
    method SendCommand()
      requires parent.Sending?
      modifies this
      ensures System() == ParentStep(old(System()), Send)
    {
      if !link.open {
        parent := Free;
        return;
      }
      var id := link.nextId;
      match parent.req {
        case CallRequest(op) =>
          link := Posted(link, Call(id, op));
          parent := Awaiting(id);
        case StreamRequest(gen) =>
          link := Posted(link, Stream(id, gen));
          parent := Streaming(id, gen, false);
          log := log.(yielded := log.yielded[id := []]);
      }
    }

    /** One message taken from the result queue while a call is waiting: any other request's is dropped. */
    method TakeAnswer() returns (answer: Option<Body>)
      requires parent.Awaiting? && link.results != []
      modifies this
      ensures System() == ParentStep(old(System()), Receive)
      ensures answer.Some? <==> old(link.results[0].id == parent.id)
      ensures answer.Some? ==> answer.value == old(link.results[0].body)
    {
      var raw := link.results[0];
      link := Popped(link);
      if raw.id != parent.id { return None; }
      log := log.(answers := log.answers[parent.id := raw.body]);
      parent := Free;
      return Some(raw.body);
    }

    /** One message taken by the main loop of `stream`: what is yielded for it, if anything. */
    method TakeStreamMessage() returns (yielded: Option<Item>)
      requires parent.Streaming? && link.results != []
      modifies this
      ensures System() == ParentStep(old(System()), Receive)
      ensures yielded.Some? <==>
                old(link.results[0].id == parent.id && link.results[0].body.Event? && !parent.draining)
      ensures yielded.Some? ==> Event(yielded.value) == old(link.results[0].body)
    {
      var raw := link.results[0];
      var id, draining := parent.id, parent.draining;
      link := Popped(link);
      if raw.id != id { return None; }
      match raw.body {
        case Done =>
          if draining {
            log := log.(ended := log.ended[id := Cancelled]);
            parent := Free;
          } else {
            parent := Tail(id);
          }
        case Event(item) =>
          if !draining {
            log := log.(yielded := log.yielded[id := Known(log.yielded, id) + [item]]);
            return Some(item);
          }
        case Error =>
          log := log.(ended := log.ended[id := Failed]);
          parent := Free;
        case Result(_) =>
          log := log.(ended := log.ended[id := ProtocolError]);
          parent := Free;
      }
      return None;
    }
  }
}
