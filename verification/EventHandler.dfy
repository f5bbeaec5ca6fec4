/** Callback slots of a subscriber, one per kind of event. */
module EventHandlers {
  import opened Requests

  datatype EventKind = ErrorKind | AcceptKind | ReadKind | WriteKind | ConnectKind

  function KindOfEvent(e: Event): EventKind {
    match e
    case ErrorEvent(_) => ErrorKind
    case AcceptEvent(_) => AcceptKind
    case ReadEvent(_, _) => ReadKind
    case WriteEvent(_, _) => WriteKind
    case ConnectEvent => ConnectKind
  }

  /** A callable, or an empty one. */
  type Callback = Option<nat>

  datatype Registration = Registration(kind: EventKind, callback: Callback)

  /** The callback in force for a kind after a history of registrations. */
  ghost function InForce(history: seq<Registration>, kind: EventKind): Callback {
    if history == [] then None
    else
      var last := history[|history| - 1];
      if last.kind == kind then last.callback else InForce(history[..|history| - 1], kind)
  }

  /** It is the last one registered for that kind. */
  lemma {:induction false} InForceIsLast(history: seq<Registration>, kind: EventKind, i: nat)
    requires i < |history| && history[i].kind == kind
    requires forall j :: i < j < |history| ==> history[j].kind != kind
    ensures InForce(history, kind) == history[i].callback
  {
    if i < |history| - 1 {
      assert history[|history| - 1].kind != kind;
      InForceIsLast(history[..|history| - 1], kind, i);
    }
  }

  lemma {:induction false} NoneInForce(history: seq<Registration>, kind: EventKind)
    requires forall j :: 0 <= j < |history| ==> history[j].kind != kind
    ensures InForce(history, kind) == None
  {
    if history != [] { NoneInForce(history[..|history| - 1], kind); }
  }

  class EventHandler {
    var errorCallback: Callback
    var acceptCallback: Callback
    var readCallback: Callback
    var writeCallback: Callback
    var connectCallback: Callback
    ghost var history: seq<Registration>

    function Slot(kind: EventKind): Callback
      reads this
    {
      match kind
      case ErrorKind => errorCallback
      case AcceptKind => acceptCallback
      case ReadKind => readCallback
      case WriteKind => writeCallback
      case ConnectKind => connectCallback
    }

    ghost predicate Valid()
      reads this
    {
      forall kind :: Slot(kind) == InForce(history, kind)
    }

    constructor ()
      ensures Valid() && history == []
    {
      errorCallback, acceptCallback, readCallback, writeCallback, connectCallback := None, None, None, None, None;
      history := [];
    }

    /** Replace the callback of one kind, and of no other. */
    method On(kind: EventKind, f: Callback)
      requires Valid()
      modifies this
      ensures Valid() && history == old(history) + [Registration(kind, f)]
    {
      match kind {
        case ErrorKind => errorCallback := f;
        case AcceptKind => acceptCallback := f;
        case ReadKind => readCallback := f;
        case WriteKind => writeCallback := f;
        case ConnectKind => connectCallback := f;
      }
      history := history + [Registration(kind, f)];
      assert history[..|history| - 1] == old(history);
    }

    /** The callback an event reaches: the last one registered for its kind, if not empty. */
    method Handle(e: Event) returns (invoked: Callback)
      requires Valid()
      ensures e.ErrorEvent? ==> invoked == InForce(history, ErrorKind)
      ensures e.AcceptEvent? ==> invoked == InForce(history, AcceptKind)
      ensures e.ReadEvent? ==> invoked == InForce(history, ReadKind)
      ensures e.WriteEvent? ==> invoked == InForce(history, WriteKind)
      ensures e.ConnectEvent? ==> invoked == InForce(history, ConnectKind)
    {
      invoked := Slot(KindOfEvent(e));
    }
  }
}
