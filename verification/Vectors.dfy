/** The vector adapters: arrays of element adapters of any kind, bound and unbound element by
    element. */
module Vectors {
  import opened Model
  import opened Fabric
  import opened Adapters

  /** The element adapters of a module. */
  datatype ModuleElement = InOf(i: ModuleIn) | OutOf(o: ModuleOut) | SocketOf(s: ModuleSocket) {
    function Obj(): object {
      match this
      case InOf(i) => i
      case OutOf(o) => o
      case SocketOf(s) => s
    }

    ghost predicate Released()
      reads Obj()
    {
      match this
      case InOf(i) => i.rrAdapter == null
      case OutOf(o) => o.rrAdapter == null
      case SocketOf(s) => s.rrAdapter == null
    }

    /** The value the module's side is asked to show. */
    ghost function Asked(): Option<Value>
      reads Obj()
    {
      match this
      case InOf(i) => Some(i.signal.nxt)
      case OutOf(o) => Some(o.signal.nxt)
      case SocketOf(s) => None
    }
  }

  /** What an element adapter of a region shows besides its pointer. */
  datatype Status =
    | InStatus(exposed: Signal, update: Process, syncing: bool, synced: bool)
    | OutStatus(rest: Value, exposed: Signal, drive: Process, decoupled: bool, synced: bool)
    | SocketStatus(synced: bool)

  function AfterBind(was: Status, sync: bool): Status {
    if !sync then was
    else
      match was
      case InStatus(exposed, update, syncing, synced) => InStatus(exposed, Notify(update), true, synced)
      case OutStatus(rest, exposed, drive, decoupled, synced) => OutStatus(rest, exposed, drive, false, true)
      case SocketStatus(synced) => SocketStatus(true)
  }

  function AfterUnbind(was: Status): Status {
    match was
    case OutStatus(rest, exposed, drive, decoupled, synced) => OutStatus(rest, exposed, Notify(drive), true, synced)
    case _ => was
  }

  /** The element adapters of a region. */
  datatype Element = InElement(i: RrIn) | OutElement(o: RrOut) | SocketElement(s: RrSocket) {
    function Obj(): object {
      match this
      case InElement(i) => i
      case OutElement(o) => o
      case SocketElement(s) => s
    }

    predicate Fits(m: ModuleElement) {
      (InElement? && m.InOf?) || (OutElement? && m.OutOf?) || (SocketElement? && m.SocketOf?)
    }

    /** The adapters of a region are not those of a module. */
    lemma Differs(m: ModuleElement)
      ensures Obj() != m.Obj()
    {
    }

    ghost predicate Free()
      reads Obj()
    {
      match this
      case InElement(i) => i.moduleAdapter == null
      case OutElement(o) => o.moduleAdapter == null
      case SocketElement(s) => s.moduleAdapter == null
    }

    ghost predicate PointsTo(m: ModuleElement)
      reads Obj()
    {
      match this
      case InElement(i) => m.InOf? && i.moduleAdapter == m.i
      case OutElement(o) => m.OutOf? && o.moduleAdapter == m.o
      case SocketElement(s) => m.SocketOf? && s.moduleAdapter == m.s
    }

    ghost predicate PointedFrom(m: ModuleElement)
      reads m.Obj()
    {
      match this
      case InElement(i) => m.InOf? && m.i.rrAdapter == i
      case OutElement(o) => m.OutOf? && m.o.rrAdapter == o
      case SocketElement(s) => m.SocketOf? && m.s.rrAdapter == s
    }

    ghost function Shows(): Status
      reads Obj()
    {
      match this
      case InElement(i) => InStatus(i.exposed, i.update, i.syncing, i.synced)
      case OutElement(o) => OutStatus(o.rest, o.exposed, o.drive, o.decoupled, o.synced)
      case SocketElement(s) => SocketStatus(s.synced)
    }

    method Bind(m: ModuleElement, sync: bool) returns (ok: bool)
      requires Fits(m)
      modifies Obj(), m.Obj()
      ensures ok <==> old(Free())
      ensures ok ==> PointsTo(m) && PointedFrom(m) && Shows() == AfterBind(old(Shows()), sync) && m.Asked() == old(m.Asked())
    {
      match this
      case InElement(i) => ok := i.DynamicBind(map[], m.i, sync);
      case OutElement(o) => ok := o.DynamicBind(map[], m.o, sync);
      case SocketElement(s) => ok := s.DynamicBind(m.s, sync);
    }

    method Unbind(m: ModuleElement) returns (ok: bool)
      requires Fits(m)
      modifies Obj(), m.Obj()
      ensures ok <==> old(PointsTo(m))
      ensures ok ==> Free() && m.Released() && Shows() == AfterUnbind(old(Shows()))
      ensures ok ==> m.Asked() == if OutElement? then Some(o.rest) else old(m.Asked())
    {
      match this
      case InElement(i) => ok := i.DynamicUnbind(map[], m.i);
      case OutElement(o) => ok := o.DynamicUnbind(map[], m.o);
      case SocketElement(s) => ok := s.DynamicUnbind(m.s);
    }
  }

  /** `module_vector_adapter`. */
  class ModuleVector {
    const elements: seq<ModuleElement>

    constructor (elements: seq<ModuleElement>)
      ensures this.elements == elements
    {
      this.elements := elements;
    }

    ghost predicate Valid()
    {
      forall i, j | 0 <= i < j < |elements| :: elements[i].Obj() != elements[j].Obj()
    }

    ghost function Parts(): set<object>
    {
      set i | 0 <= i < |elements| :: elements[i].Obj()
    }
  }

  /** `rr_vector_adapter`.  An event list is the sequence of adapters whose synced events it
      waits for. */
  class RrVector {
    const elements: seq<Element>
    var allSynced: seq<Element>

    constructor (elements: seq<Element>)
      ensures this.elements == elements && allSynced == []
    {
      this.elements, allSynced := elements, [];
    }

    ghost predicate Valid()
    {
      forall i, j | 0 <= i < j < |elements| :: elements[i].Obj() != elements[j].Obj()
    }

    ghost function Parts(): set<object>
    {
      set i | 0 <= i < |elements| :: elements[i].Obj()
    }

    /** The element types of both vectors are the same. */
    ghost predicate Fits(mv: ModuleVector)
    {
      forall i | 0 <= i < |elements| && i < |mv.elements| :: elements[i].Fits(mv.elements[i])
    }

    /** The vector itself is not among the elements. */
    lemma NotAnElement(mv: ModuleVector)
      ensures forall j | 0 <= j < |elements| :: elements[j].Obj() != this && allocated(elements[j].Obj())
      ensures forall j | 0 <= j < |mv.elements| :: mv.elements[j].Obj() != this && allocated(mv.elements[j].Obj())
    {
    }

    /** Working on element `i` leaves the other elements alone. */
    lemma Apart(mv: ModuleVector, i: nat)
      requires Valid() && mv.Valid() && |elements| == |mv.elements| && i < |elements|
      ensures elements[i].Obj() in Parts() && mv.elements[i].Obj() in mv.Parts()
      ensures forall j | 0 <= j < |elements| && j != i ::
        && elements[j].Obj() != elements[i].Obj() && elements[j].Obj() != mv.elements[i].Obj()
        && mv.elements[j].Obj() != elements[i].Obj() && mv.elements[j].Obj() != mv.elements[i].Obj()
      ensures elements[i].Obj() != mv.elements[i].Obj() && elements[i].Obj() != this && mv.elements[i].Obj() != this
    {
      forall j | 0 <= j < |elements|
        ensures elements[j].Obj() != mv.elements[i].Obj() && elements[i].Obj() != mv.elements[j].Obj()
      {
        elements[j].Differs(mv.elements[i]);
        elements[i].Differs(mv.elements[j]);
      }
    }

    /** No element is bound, and the event list is empty. */
    ghost predicate Unbound()
      reads this, Parts()
    {
      allSynced == [] && forall i | 0 <= i < |elements| :: (assert elements[i].Obj() in Parts(); elements[i].Free())
    }

    /** Element `i` is bound to element `i`, for all of them, and the event list holds exactly the
        event of each element. */
    ghost predicate BoundTo(mv: ModuleVector)
      reads this, Parts(), mv.Parts()
    {
      && |elements| == |mv.elements| && allSynced == elements
      && forall i | 0 <= i < |elements| ::
           (assert elements[i].Obj() in Parts() && mv.elements[i].Obj() in mv.Parts();
            elements[i].PointsTo(mv.elements[i]) && elements[i].PointedFrom(mv.elements[i]))
    }

    /** The first loop of `dynamic_bind`: the event of every element joins the list. */
    method CollectEvents()
      modifies this
      ensures allSynced == old(allSynced) + elements
    {
      for i := 0 to |elements|
        invariant allSynced == old(allSynced) + elements[..i]
      {
        allSynced := allSynced + [elements[i]];
      }
      assert elements[..|elements|] == elements;
    }

    method DynamicBind(mv: ModuleVector, sync: bool) returns (ok: bool)
      requires Valid() && mv.Valid() && Fits(mv)
      modifies this, Parts(), mv.Parts()
      ensures ok <==> |elements| == |mv.elements| && forall i | 0 <= i < |elements| :: old(elements[i].Free())
      ensures ok ==> allSynced == old(allSynced) + elements
      ensures ok ==> forall i | 0 <= i < |elements| ::
        && elements[i].PointsTo(mv.elements[i]) && elements[i].PointedFrom(mv.elements[i])
        && elements[i].Shows() == AfterBind(old(elements[i].Shows()), sync)
        && mv.elements[i].Asked() == old(mv.elements[i].Asked())
      ensures old(Unbound()) && |elements| == |mv.elements| ==> ok && BoundTo(mv)
    {
      hide Element.Free, Element.PointsTo, Element.PointedFrom, ModuleElement.Released, Element.Shows, Element.Fits, ModuleElement.Asked, AfterBind,
           AfterUnbind, Element.Obj, ModuleElement.Obj;
      if |elements| != |mv.elements| {
        return false;
      }
      NotAnElement(mv);
      CollectEvents();
      for i := 0 to |elements|
        invariant allSynced == old(allSynced) + elements
        invariant forall j | 0 <= j < i ::
          && old(elements[j].Free())
          && elements[j].PointsTo(mv.elements[j]) && elements[j].PointedFrom(mv.elements[j])
          && elements[j].Shows() == AfterBind(old(elements[j].Shows()), sync)
          && mv.elements[j].Asked() == old(mv.elements[j].Asked())
        invariant forall j | i <= j < |elements| ::
          && elements[j].Free() == old(elements[j].Free()) && elements[j].Shows() == old(elements[j].Shows())
          && mv.elements[j].Asked() == old(mv.elements[j].Asked())
      {
        Apart(mv, i);
        NotAnElement(mv);
        var bound := elements[i].Bind(mv.elements[i], sync);
        if !bound {
          return false;
        }
      }
      return true;
    }

    method DynamicUnbind(mv: ModuleVector) returns (ok: bool)
      requires Valid() && mv.Valid() && Fits(mv)
      modifies this, Parts(), mv.Parts()
      ensures ok <==> |elements| == |mv.elements|
                      && forall i | 0 <= i < |elements| :: old(elements[i].PointsTo(mv.elements[i]))
      ensures ok ==> Unbound()
      ensures ok ==> forall i | 0 <= i < |elements| ::
        && mv.elements[i].Released() && elements[i].Shows() == AfterUnbind(old(elements[i].Shows()))
        && mv.elements[i].Asked() == if elements[i].OutElement? then Some(elements[i].o.rest) else old(mv.elements[i].Asked())
      ensures old(BoundTo(mv)) ==> ok
    {
      hide Element.Free, Element.PointsTo, Element.PointedFrom, ModuleElement.Released, Element.Shows, Element.Fits, ModuleElement.Asked, AfterBind,
           AfterUnbind, Element.Obj, ModuleElement.Obj;
      if |elements| != |mv.elements| {
        return false;
      }
      NotAnElement(mv);
      allSynced := [];
      for i := 0 to |elements|
        invariant allSynced == []
        invariant forall j | 0 <= j < i ::
          && old(elements[j].PointsTo(mv.elements[j])) && elements[j].Free() && mv.elements[j].Released()
          && elements[j].Shows() == AfterUnbind(old(elements[j].Shows()))
          && mv.elements[j].Asked() == if elements[j].OutElement? then Some(elements[j].o.rest) else old(mv.elements[j].Asked())
        invariant forall j | i <= j < |elements| ::
          && elements[j].PointsTo(mv.elements[j]) == old(elements[j].PointsTo(mv.elements[j]))
          && elements[j].Shows() == old(elements[j].Shows()) && mv.elements[j].Asked() == old(mv.elements[j].Asked())
      {
        Apart(mv, i);
        NotAnElement(mv);
        var unbound := elements[i].Unbind(mv.elements[i]);
        if !unbound {
          return false;
        }
      }
      return true;
    }
  }
}
