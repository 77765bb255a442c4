/** Declaring processes: the macros NC_METHOD, NC_THREAD and NC_CTHREAD store spawn arguments
    that share an options object with `sensitive`, which later insertions go on filling. */
module Sensitivity {
  type Event = nat
  type Function = nat

  datatype Kind = MethodProcess | ThreadProcess | ClockedThread

  /** What a constructor body does, in order.  NC_CTHREAD is a `Process` and an `Insert`. */
  datatype Declaration =
    | Process(kind: Kind, func: Function)
    | Insert(event: Event)
    | DontInitialize

  /** One stored process: its function, whether it is a method process, what it is sensitive to
      and whether it runs at start-up. */
  datatype Stored = Stored(func: Function, asMethod: bool, events: seq<Event>, initialize: bool)

  // ---- specification -------------------------------------------------------------------------

  function Apply(stored: seq<Stored>, d: Declaration): (n: seq<Stored>)
    requires d.Process? || stored != []
    ensures |n| == |stored| + if d.Process? then 1 else 0
  {
    match d
    case Process(kind, func) => stored + [Stored(func, kind.MethodProcess?, [], true)]
    case Insert(event) => stored[|stored| - 1 := stored[|stored| - 1].(events := stored[|stored| - 1].events + [event])]
    case DontInitialize => stored[|stored| - 1 := stored[|stored| - 1].(initialize := false)]
  }

  /** Insertions need a process to go to. */
  predicate Usable(ds: seq<Declaration>) {
    ds == [] || ds[0].Process?
  }

  function Grouped(ds: seq<Declaration>): (n: seq<Stored>)
    requires Usable(ds)
    ensures ds != [] ==> n != []
  {
    if ds == [] then [] else
    if |ds| == 1 then Apply([], ds[0])
    else Apply(Grouped(ds[..|ds| - 1]), ds[|ds| - 1])
  }

  function Events(ds: seq<Declaration>): seq<Event> {
    if ds == [] then []
    else Events(ds[..|ds| - 1]) + if ds[|ds| - 1].Insert? then [ds[|ds| - 1].event] else []
  }

  predicate StartsUp(ds: seq<Declaration>) {
    forall i | 0 <= i < |ds| :: !ds[i].DontInitialize?
  }

  ghost predicate NoProcess(ds: seq<Declaration>) {
    forall i | 0 <= i < |ds| :: !ds[i].Process?
  }

  /** Each stored process is sensitive to exactly the events inserted between its own macro and
      the next one, and starts up unless told otherwise there; and what was stored for earlier
      processes does not change. */
  lemma {:induction false} GroupedBySegment(before: seq<Declaration>, kind: Kind, func: Function, segment: seq<Declaration>)
    requires Usable(before) && NoProcess(segment)
    ensures Usable(before + [Process(kind, func)] + segment)
    ensures Grouped(before + [Process(kind, func)] + segment)
         == Grouped(before) + [Stored(func, kind.MethodProcess?, Events(segment), StartsUp(segment))]
  {
    var head := before + [Process(kind, func)];
    if segment == [] {
      assert head + segment == head;
      assert head[..|head| - 1] == before;
    } else {
      var n := |segment| - 1;
      GroupedBySegment(before, kind, func, segment[..n]);
      assert (head + segment)[..|head + segment| - 1] == head + segment[..n];
      assert segment == segment[..n] + [segment[n]];
      AppliedLast(Grouped(before), func, kind.MethodProcess?, segment[..n], segment[n]);
    }
  }

  lemma {:induction false} AppliedLast(stored: seq<Stored>, func: Function, asMethod: bool, segment: seq<Declaration>, d: Declaration)
    requires !d.Process?
    ensures Apply(stored + [Stored(func, asMethod, Events(segment), StartsUp(segment))], d)
         == stored + [Stored(func, asMethod, Events(segment + [d]), StartsUp(segment + [d]))]
  {
    var last := Stored(func, asMethod, Events(segment), StartsUp(segment));
    assert (segment + [d])[..|segment|] == segment;
    assert StartsUp(segment + [d]) <==> StartsUp(segment) && !d.DontInitialize? by {
      assert (segment + [d])[|segment|] == d;
      assert forall i | 0 <= i < |segment| :: (segment + [d])[i] == segment[i];
    }
    assert Apply(stored + [last], d)[..|stored|] == stored;
    assert Apply(stored + [last], d)[|stored|] == Stored(func, asMethod, Events(segment + [d]), StartsUp(segment + [d]));
  }

  // ---- the objects -------------------------------------------------------------------------------

  class SpawnOptions {
    var asMethod: bool
    var events: seq<Event>
    var initialize: bool

    constructor ()
      ensures !asMethod && events == [] && initialize
    {
      asMethod, events, initialize := false, [], true;
    }
  }

  /** `nc_sensitive_opts`. */
  class SensitiveOptions {
    var opts: SpawnOptions?

    constructor ()
      ensures opts == null
    {
      opts := null;
    }

    /** `new_args`, which resets to a new options object. */
    method NewArgs(kind: Kind)
      modifies this
      ensures opts != null && fresh(opts)
      ensures opts.asMethod == kind.MethodProcess? && opts.events == [] && opts.initialize
    {
      opts := new SpawnOptions();
      if kind.MethodProcess? {
        opts.asMethod := true;
      }
    }

    /** The call and insertion operators. */
    method Add(event: Event)
      requires opts != null
      modifies opts
      ensures opts.events == old(opts.events) + [event]
      ensures opts.asMethod == old(opts.asMethod) && opts.initialize == old(opts.initialize)
    {
      opts.events := opts.events + [event];
    }

    method DontInitialize()
      requires opts != null
      modifies opts
      ensures !opts.initialize && opts.events == old(opts.events) && opts.asMethod == old(opts.asMethod)
    {
      opts.initialize := false;
    }
  }

  datatype SpawnArgs = SpawnArgs(func: Function, opts: SpawnOptions)

  /** The part of `abstract_module_base` that collects processes. */
  class Processes {
    const sensitive: SensitiveOptions
    var args: seq<SpawnArgs>

    constructor ()
      ensures Valid() && View() == [] && fresh(sensitive)
    {
      sensitive := new SensitiveOptions();
      args := [];
    }

    /** The options objects are distinct, and `sensitive` shares that of the last process. */
    ghost predicate Valid()
      reads this, sensitive
    {
      && (forall i, j | 0 <= i < j < |args| :: args[i].opts != args[j].opts)
      && sensitive.opts == if args == [] then null else args[|args| - 1].opts
    }

    ghost function Options(): set<object>
      reads this
    {
      set i | 0 <= i < |args| :: args[i].opts
    }

    ghost function View(): (v: seq<Stored>)
      reads this, Options()
      ensures |v| == |args|
    {
      seq(|args|, i requires 0 <= i < |args| reads this, Options() =>
        assert args[i].opts in Options();
        Stored(args[i].func, args[i].opts.asMethod, args[i].opts.events, args[i].opts.initialize))
    }

    /** The process macros, `<<` and `dont_initialize`. */
    method Declare(d: Declaration)
      requires Valid() && (d.Process? || args != [])
      modifies this, sensitive, sensitive.opts
      ensures Valid() && View() == Apply(old(View()), d)
      ensures sensitive.opts == old(sensitive.opts) || fresh(sensitive.opts)
    {
      match d
      case Process(kind, func) =>
        sensitive.NewArgs(kind);
        args := args + [SpawnArgs(func, sensitive.opts)];
      case Insert(event) => sensitive.Add(event);
      case DontInitialize => sensitive.DontInitialize();
    }

    /** A whole constructor body. */
    method DeclareAll(ds: seq<Declaration>)
      requires Valid() && args == [] && Usable(ds)
      modifies this, sensitive
      ensures Valid() && View() == Grouped(ds)
    {
      for k := 0 to |ds|
        invariant Valid() && Usable(ds[..k]) && View() == Grouped(ds[..k])
        invariant sensitive.opts != null ==> fresh(sensitive.opts)
      {
        assert ds[..k + 1][..k] == ds[..k];
        Declare(ds[k]);
      }
      assert ds[..|ds|] == ds;
    }
  }
}
