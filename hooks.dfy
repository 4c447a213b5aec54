/** Extension hooks (djblets/extensions/hooks.py) and the part of an Extension that owns them
    (djblets/extensions/extension.py). A hook object registers with the list of its hook point
    and with its extension when it is built, and deregisters when it is shut down; each hook kind
    adds one side effect on a host collaborator on top of that bookkeeping.

    The Extension class lives in this module because hooks and extensions refer to each other
    (`extension.hooks.add(self)` and `hook.shutdown()`), and Dafny modules cannot import each
    other in a cycle. */
module ExtensionHooks {
  import opened Wrappers
  import opened Lists
  import opened Collaborators

  /** What `shutdown` raises instead of completing. */
  datatype HookError =
    | NotInitialized  // `assert self.initialized` fails (AssertionError)
    | NotInList       // `list.remove(hook)` finds no such hook (ValueError)
    | UnknownName     // `_by_name[name]` has no such key (KeyError)

  /** The list object a hook class keeps in its `hooks` attribute. */
  class HookList {
    var items: seq<Hook>

    constructor ()
      ensures items == []
    {
      items := [];
    }
  }

  /** A hook class made by the ExtensionHookPoint metaclass, reduced to the list it keeps. A
      class that declares no `hooks` of its own finds its base's list by attribute lookup and
      shares it; only a class with neither gets a fresh, empty list. */
  class HookPoint {
    const hooks: HookList

    /** `ExtensionHookPoint.__init__`: `base` is the nearest base class that has a `hooks`
        attribute (null when none has), `declared` the list the class body assigns (null when it
        assigns none). */
    constructor (base: HookPoint?, declared: HookList?)
      ensures declared != null ==> hooks == declared
      ensures declared == null && base != null ==> hooks == base.hooks
      ensures declared == null && base == null ==> fresh(hooks) && hooks.items == []
    {
      if declared != null {
        hooks := declared;
      } else if base != null {
        hooks := base.hooks;
      } else {
        hooks := new HookList();
      }
    }

    /** `add_hook`: appends to the end of the list. */
    method AddHook(hook: Hook)
      modifies hooks
      ensures hooks.items == old(hooks.items) + [hook]
    {
      hooks.items := hooks.items + [hook];
    }

    /** `remove_hook`: `list.remove`, which raises when the hook is not in the list. */
    method RemoveHook(hook: Hook) returns (r: Outcome<HookError>)
      modifies hooks
      ensures hook in old(hooks.items) ==>
        r == Pass && hooks.items == RemoveFirst(old(hooks.items), hook)
      ensures hook !in old(hooks.items) ==>
        r == Fail(NotInList) && hooks.items == old(hooks.items)
    {
      if hook in hooks.items {
        hooks.items := RemoveFirst(hooks.items, hook);
        r := Pass;
      } else {
        r := Fail(NotInList);
      }
    }
  }

  /** `TemplateHook._by_name`: template hooks by the name of their insertion point. */
  class TemplateIndex {
    var byName: map<string, seq<Hook>>

    constructor ()
      ensures byName == map[]
    {
      byName := map[];
    }

    /** `TemplateHook.by_name(name)`: the hooks registered under `name`, or none. */
    function ByName(name: string): (hooks: seq<Hook>)
      reads this
      ensures name !in byName ==> hooks == []
      ensures forall h :: h in hooks ==> name in byName && h in byName[name]
    {
      if name in byName then byName[name] else []
    }
  }

  /** The extension manager, reduced to the dynamic URL resolver that URL hooks extend. */
  class ExtensionManager {
    const dynamicUrls: DynamicURLs

    constructor (dynamicUrls: DynamicURLs)
      ensures this.dynamicUrls == dynamicUrls
    {
      this.dynamicUrls := dynamicUrls;
    }
  }

  /** What a template context can hold: the extension bound by a template hook, or any other
      value. */
  datatype ContextValue = ExtensionValue(extension: Extension) | OtherValue(text: string)

  /** `AppliesToURLMixin.applies_to`: a hook restricted to URL names applies on a page whose
      URL name is one of them; an empty (or missing) list does not restrict. */
  predicate AppliesTo(applyTo: seq<string>, urlName: string)
  {
    |applyTo| == 0 || urlName in applyTo
  }

  /** The hook kinds of hooks.py, each with the data its subclass keeps. `Plain` is a
      project-defined hook class that adds nothing to the base behaviour. */
  datatype Kind =
    | Plain
    | Columns(datagrid: DataGrid, columns: seq<Column>)
    | URLs(dynamicUrls: DynamicURLs, patterns: seq<Pattern>)
    | SignalConnection(signal: Signal, callback: Callback, dispatchUid: Uid)
    | Template(index: TemplateIndex, name: string, templateName: Option<string>, applyTo: seq<string>)
  {
    /** The collaborator that this kind's shutdown calls into, if any. */
    function Host(): object?
    {
      match this
      case Plain => null
      case Columns(d, _) => d
      case URLs(u, _) => u
      case SignalConnection(s, _, _) => s
      case Template(i, _, _, _) => i
    }
  }

  /** No hook kind's collaborator is an extension, so shutting a hook down never touches one. */
  lemma HostIsNotExtension(k: Kind, e: Extension)
    ensures k.Host() != e
  {
  }

  /** The `remove_column` calls that shutting down `h` makes on datagrid `d`. */
  function ColumnTeardown(h: Hook, d: DataGrid): (calls: seq<ColumnCall>)
  {
    match h.kind
    case Columns(d', cs) => if d' == d then RemoveCalls(cs) else []
    case _ => []
  }

  /** The `remove_patterns` call that shutting down `h` makes on resolver `u`. */
  function URLTeardown(h: Hook, u: DynamicURLs): (calls: seq<URLCall>)
  {
    match h.kind
    case URLs(u', ps) => if u' == u then [RemovePatterns(ps)] else []
    case _ => []
  }

  /** The `disconnect` call that shutting down `h` makes on signal `sig`. */
  function SignalTeardown(h: Hook, sig: Signal): (calls: seq<SignalCall>)
  {
    match h.kind
    case SignalConnection(s', _, uid) => if s' == sig then [Disconnect(uid)] else []
    case _ => []
  }

  /** What shutting down `h` leaves of the name index `i`, starting from `byName`. */
  function IndexTeardown(byName: map<string, seq<Hook>>, h: Hook, i: TemplateIndex): (r: map<string, seq<Hook>>)
  {
    match h.kind
    case Template(i', n, _, _) =>
      if i' == i && n in byName && h in byName[n] then byName[n := RemoveFirst(byName[n], h)] else byName
    case _ => byName
  }

  /** The calls on `d` made by shutting down the hooks of `order`, one after the other. */
  function ColumnCallsOf(order: seq<Hook>, d: DataGrid): (calls: seq<ColumnCall>)
  {
    if |order| == 0 then [] else ColumnCallsOf(order[..|order| - 1], d) + ColumnTeardown(order[|order| - 1], d)
  }

  /** The calls on `u` made by shutting down the hooks of `order`, one after the other. */
  function URLCallsOf(order: seq<Hook>, u: DynamicURLs): (calls: seq<URLCall>)
  {
    if |order| == 0 then [] else URLCallsOf(order[..|order| - 1], u) + URLTeardown(order[|order| - 1], u)
  }

  /** The calls on `sig` made by shutting down the hooks of `order`, one after the other. */
  function SignalCallsOf(order: seq<Hook>, sig: Signal): (calls: seq<SignalCall>)
  {
    if |order| == 0 then [] else SignalCallsOf(order[..|order| - 1], sig) + SignalTeardown(order[|order| - 1], sig)
  }

  /** The name index `i` after shutting down the hooks of `order`, one after the other. */
  function IndexAfter(byName: map<string, seq<Hook>>, order: seq<Hook>, i: TemplateIndex): (r: map<string, seq<Hook>>)
  {
    if |order| == 0 then byName
    else IndexTeardown(IndexAfter(byName, order[..|order| - 1], i), order[|order| - 1], i)
  }

  /** What shutting down `h` leaves of the items of hook list `l`: `h` leaves it once when it is
      `h`'s own list and holds `h`. */
  function ListTeardown(items: seq<Hook>, h: Hook, l: HookList): (r: seq<Hook>)
  {
    if h.point.hooks == l && h in items then RemoveFirst(items, h) else items
  }

  /** The items of hook list `l` after shutting down the hooks of `order`, one after the other. */
  function ListAfter(items: seq<Hook>, order: seq<Hook>, l: HookList): (r: seq<Hook>)
  {
    if |order| == 0 then items
    else ListTeardown(ListAfter(items, order[..|order| - 1], l), order[|order| - 1], l)
  }

  /** In a list that holds each of its hooks once, shutting down the hooks of `order` leaves
      the other hooks in their order: the list loses exactly the hooks of `order`. */
  lemma {:induction false} ListAfterWithout(items: seq<Hook>, order: seq<Hook>, l: HookList)
    requires Distinct(items)
    requires forall h :: h in items ==> h.point.hooks == l
    ensures ListAfter(items, order, l) == Without(items, set h | h in order)
  {
    if |order| == 0 {
      assert (set h | h in order) == {};
      WithoutNothing(items, {});
    } else {
      var n := |order| - 1;
      var x := order[n];
      var gone := set h | h in order[..n];
      var w := Without(items, gone);
      assert ListAfter(items, order[..n], l) == w by {
        ListAfterWithout(items, order[..n], l);
      }
      assert (set h | h in order) == gone + {x};
      assert Without(items, gone + {x}) == Without(w, {x}) by {
        WithoutTwice(items, gone, {x});
      }
      if x in w {
        assert x.point.hooks == l by {
          WithoutMembers(items, gone, x);
        }
        assert RemoveFirst(w, x) == Without(w, {x}) by {
          WithoutDistinct(items, gone);
          RemoveFirstWithout(w, x);
        }
      } else {
        WithoutNothing(w, {x});
      }
    }
  }

  /** The collaborators' and hook lists' state that the sweep starts from, under the hook that
      uses each. */
  datatype HostLogs = HostLogs(
    lists: map<Hook, seq<Hook>>,
    columns: map<Hook, seq<ColumnCall>>,
    urls: map<Hook, seq<URLCall>>,
    signals: map<Hook, seq<SignalCall>>,
    names: map<Hook, map<string, seq<Hook>>>)

  /** What the sweep starts from: whether every initialized hook is registered, each hook's
      list count and flag, and its collaborator's state. */
  datatype SweepStart = SweepStart(ready: bool, count0: map<Hook, nat>, init0: map<Hook, bool>, logs0: HostLogs)

  class Extension {
    const id: string
    const manager: ExtensionManager
    var hooks: set<Hook>

    /** `Extension.__init__`, as far as hooks are concerned: an empty hook set. */
    constructor (id: string, manager: ExtensionManager)
      ensures this.id == id && this.manager == manager && hooks == {}
    {
      this.id := id;
      this.manager := manager;
      hooks := {};
    }

    /** The objects that shutting this extension's hooks may change. */
    ghost function HookObjects(): set<object?>
      reads this, hooks
    {
      hooks + (set h | h in hooks :: h.point.hooks) + (set h | h in hooks :: h.kind.Host())
    }

    /** Every hook that is still initialized can be shut down without an exception. */
    ghost predicate HooksReady()
      reads this, HookObjects()
    {
      forall h :: h in hooks && h.initialized ==> h.Registered()
    }

    /** The state of the collaborators that the hooks use, each kept under the hook that uses
        it: datagrid, resolver and signal call logs, and template name indexes. */
    ghost function Logs(): (logs: HostLogs)
      reads this, HookObjects()
      ensures logs.lists.Keys == hooks
      ensures logs.columns.Keys == set h | h in hooks && h.kind.Columns?
      ensures logs.urls.Keys == set h | h in hooks && h.kind.URLs?
      ensures logs.signals.Keys == set h | h in hooks && h.kind.SignalConnection?
      ensures logs.names.Keys == set h | h in hooks && h.kind.Template?
    {
      HostLogs(map h | h in hooks :: h.point.hooks.items,
               map h | h in hooks && h.kind.Columns? :: h.kind.datagrid.calls,
               map h | h in hooks && h.kind.URLs? :: h.kind.dynamicUrls.calls,
               map h | h in hooks && h.kind.SignalConnection? :: h.kind.signal.calls,
               map h | h in hooks && h.kind.Template? :: h.kind.index.byName)
    }

    /** Each collaborator of a hook has gone from its state in `logs0` through the teardown of
        the hooks of `order`, one after the other, and through nothing else. */
    ghost predicate Logged(order: seq<Hook>, logs0: HostLogs)
      reads this, HookObjects()
    {
      forall h :: h in hooks ==>
        match h.kind
        case Plain => true
        case Columns(d, _) => h in logs0.columns && d.calls == logs0.columns[h] + ColumnCallsOf(order, d)
        case URLs(u, _) => h in logs0.urls && u.calls == logs0.urls[h] + URLCallsOf(order, u)
        case SignalConnection(sig, _, _) =>
          h in logs0.signals && sig.calls == logs0.signals[h] + SignalCallsOf(order, sig)
        case Template(i, _, _, _) => h in logs0.names && i.byName == IndexAfter(logs0.names[h], order, i)
    }

    /** Each hook's list has gone from its items in `lists0` through the removals made by
        shutting down the hooks of `order`, one after the other, and through nothing else. */
    ghost predicate Unlisted(order: seq<Hook>, lists0: map<Hook, seq<Hook>>)
      reads this, HookObjects()
    {
      forall h :: h in hooks ==> h in lists0 && h.point.hooks.items == ListAfter(lists0[h], order, h.point.hooks)
    }

    /** Progress of the sweep over the hook set, measured against what it started from: the
        hooks outside `todo` have been dealt with, each initialized one by leaving its list once
        and by its teardown, in the order `order` records; the hooks in `todo` are untouched,
        and when the sweep started ready they can still be shut down. */
    ghost predicate Swept(todo: set<Hook>, order: seq<Hook>, start: SweepStart)
      reads this, HookObjects()
    {
      && todo <= hooks
      && hooks <= start.count0.Keys && hooks <= start.init0.Keys
      && (forall h :: h in todo ==> h.initialized == start.init0[h])
      && (forall h :: h in hooks && h !in todo ==> !h.initialized)
      && (forall h :: h in hooks ==>
            start.count0[h] == h.Count() + (if h !in todo && start.init0[h] then 1 else 0))
      && (start.ready ==> forall h :: h in todo && h.initialized ==> h.Registered())
      && (forall h :: h in order ==> h in hooks && h !in todo && start.init0[h])
      && (forall h :: h in hooks && h !in todo && start.init0[h] ==> h in order)
      && (forall i, j :: 0 <= i < j < |order| ==> order[i] != order[j])
    }

    /** `Extension.shutdown_hooks`: shuts down every hook that is still initialized and skips
        the others. The hook set is kept as it is. When every initialized hook is registered
        the sweep completes. Then no hook is initialized; `order` lists the hooks that were
        initialized, each once, in the order they were shut down; each of them has left its hook
        point's list once, while the others kept their entries; and each collaborator of a hook
        received exactly the teardown calls of the hooks in `order` that use it, in that order.
        Hooks outside the set keep their list entries and their registration. An exception from
        one hook's shutdown ends the sweep. */
    method ShutdownHooks() returns (r: Outcome<HookError>, ghost order: seq<Hook>)
      modifies HookObjects()
      ensures hooks == old(hooks)
      ensures old(HooksReady()) ==> r == Pass
      ensures r == Pass ==> forall h :: h in hooks ==> !h.initialized
      ensures r == Pass ==> forall h :: h in hooks ==>
        old(h.Count()) == h.Count() + (if old(h.initialized) then 1 else 0)
      ensures r == Pass ==> forall h :: h in order <==> h in hooks && old(h.initialized)
      ensures r == Pass ==> forall i, j :: 0 <= i < j < |order| ==> order[i] != order[j]
      ensures r == Pass ==> forall g: Hook :: old(allocated(g)) && g !in hooks ==>
        g.Count() == old(g.Count()) && (g.Registered() <==> old(g.Registered()))
      ensures r == Pass ==> forall h :: h in hooks ==>
        && (h.kind.Columns? ==>
              h.kind.datagrid.calls == old(h.kind.datagrid.calls) + ColumnCallsOf(order, h.kind.datagrid))
        && (h.kind.URLs? ==>
              h.kind.dynamicUrls.calls == old(h.kind.dynamicUrls.calls) + URLCallsOf(order, h.kind.dynamicUrls))
        && (h.kind.SignalConnection? ==>
              h.kind.signal.calls == old(h.kind.signal.calls) + SignalCallsOf(order, h.kind.signal))
        && (h.kind.Template? ==>
              h.kind.index.byName == IndexAfter(old(h.kind.index.byName), order, h.kind.index))
      ensures r == Pass ==> forall h :: h in hooks ==>
        h.point.hooks.items == ListAfter(old(h.point.hooks.items), order, h.point.hooks)
    {
      ghost var start := Start();
      SweepBegins();
      LogsBegin();
      ListsBegin();
      r, order := Sweep(start);
      if r == Pass {
        SweepEnds(order);
        ListsEnd(order);
      }
    }

    /** The loop of `shutdown_hooks`, from the state `start` records, with nothing done yet: it
        goes through the hook set one hook at a time, and when it completes every hook is done
        and the progress predicates hold of the whole set. */
    method Sweep(ghost start: SweepStart) returns (r: Outcome<HookError>, ghost order: seq<Hook>)
      requires Swept(hooks, [], start) && Logged([], start.logs0) && Unlisted([], start.logs0.lists)
      modifies HookObjects()
      ensures hooks == old(hooks)
      ensures start.ready ==> r == Pass
      ensures r == Pass ==> Swept({}, order, start) && Logged(order, start.logs0) && Unlisted(order, start.logs0.lists)
      ensures r == Pass ==> forall g: Hook :: old(allocated(g)) && g !in hooks ==>
        g.Count() == old(g.Count()) && (g.Registered() <==> old(g.Registered()))
    {
      var todo := hooks;
      order := [];
      while todo != {}
        invariant hooks == old(hooks)
        invariant Swept(todo, order, start)
        invariant Logged(order, start.logs0)
        invariant Unlisted(order, start.logs0.lists)
        invariant forall g: Hook :: old(allocated(g)) && g !in hooks ==>
          g.Count() == old(g.Count()) && (g.Registered() <==> old(g.Registered()))
        decreases todo
      {
        var h :| h in todo;
        HostIsNotExtension(h.kind, this);
        var s;
        s, order := SweepOne(h, todo, order, start);
        if s.Fail? {
          return s, order;
        }
        todo := todo - {h};
      }
      r := Pass;
    }

    /** What the sweep starts from, taken in the state it starts in. */
    ghost function Start(): (start: SweepStart)
      reads this, HookObjects()
      ensures start.ready == HooksReady()
    {
      SweepStart(HooksReady(), map h | h in hooks :: h.Count(), map h | h in hooks :: h.initialized, Logs())
    }

    /** Before any step, every hook is still to do and nothing has been shut down. */
    lemma SweepBegins()
      ensures Swept(hooks, [], Start())
    {
    }

    /** Before any step, every collaborator is in the state the sweep starts from. */
    lemma LogsBegin()
      ensures Logged([], Start().logs0)
    {
      var start := Start();
      forall h | h in hooks
        ensures match h.kind
          case Plain => true
          case Columns(d, _) => h in start.logs0.columns && d.calls == start.logs0.columns[h] + ColumnCallsOf([], d)
          case URLs(u, _) => h in start.logs0.urls && u.calls == start.logs0.urls[h] + URLCallsOf([], u)
          case SignalConnection(sig, _, _) =>
            h in start.logs0.signals && sig.calls == start.logs0.signals[h] + SignalCallsOf([], sig)
          case Template(i, _, _, _) => h in start.logs0.names && i.byName == IndexAfter(start.logs0.names[h], [], i)
      {
      }
    }

    /** Before any step, every hook's list holds what it held. */
    lemma ListsBegin()
      ensures Unlisted([], Start().logs0.lists)
    {
    }

    /** Once nothing is left to do, the sweep has done what `shutdown_hooks` promises, measured
        from the state it started in. */
    twostate lemma SweepEnds(new order: seq<Hook>)
      requires hooks == old(hooks)
      requires Swept({}, order, old(Start()))
      requires Logged(order, old(Start()).logs0)
      ensures forall h :: h in hooks ==> !h.initialized
      ensures forall h :: h in hooks ==> old(h.Count()) == h.Count() + (if old(h.initialized) then 1 else 0)
      ensures forall h :: h in order <==> h in hooks && old(h.initialized)
      ensures forall h :: h in hooks ==>
        && (h.kind.Columns? ==>
              h.kind.datagrid.calls == old(h.kind.datagrid.calls) + ColumnCallsOf(order, h.kind.datagrid))
        && (h.kind.URLs? ==>
              h.kind.dynamicUrls.calls == old(h.kind.dynamicUrls.calls) + URLCallsOf(order, h.kind.dynamicUrls))
        && (h.kind.SignalConnection? ==>
              h.kind.signal.calls == old(h.kind.signal.calls) + SignalCallsOf(order, h.kind.signal))
        && (h.kind.Template? ==>
              h.kind.index.byName == IndexAfter(old(h.kind.index.byName), order, h.kind.index))
    {
    }

    /** Once nothing is left to do, each hook's list holds what the removals of the hooks of
        `order` left of it. */
    twostate lemma ListsEnd(new order: seq<Hook>)
      requires hooks == old(hooks)
      requires Unlisted(order, old(Start()).logs0.lists)
      ensures forall h :: h in hooks ==>
        h.point.hooks.items == ListAfter(old(h.point.hooks.items), order, h.point.hooks)
    {
    }

    /** One iteration of the sweep, `if hook.initialized: hook.shutdown()`, for a hook that is
        still to do. It completes when the sweep started ready, and then the sweep has made
        progress: `h` is done, and joined `order` if it was initialized. Every other hook kept its
        list count and its registration. */
    method SweepOne(h: Hook, ghost todo: set<Hook>, ghost order: seq<Hook>, ghost start: SweepStart)
      returns (s: Outcome<HookError>, ghost order': seq<Hook>)
      requires h in todo && Swept(todo, order, start) && Logged(order, start.logs0)
      requires Unlisted(order, start.logs0.lists)
      modifies h, h.point.hooks, h.kind.Host()
      ensures start.ready ==> s == Pass
      ensures s == Pass ==> Swept(todo - {h}, order', start) && Logged(order', start.logs0)
      ensures s == Pass ==> Unlisted(order', start.logs0.lists)
      ensures s == Pass ==> forall g: Hook :: old(allocated(g)) && g != h ==>
        g.Count() == old(g.Count()) && (g.Registered() <==> old(g.Registered()))
    {
      order' := order;
      if !h.initialized {
        SweptSkip(h, todo, order, start);
        return Pass, order';
      }
      HostIsNotExtension(h.kind, this);
      s := ShutdownOne(h);
      if s.Fail? {
        return;
      }
      SweptStep(SweepStep(this, h, todo, order, start));
      LoggedStep(SweepStep(this, h, todo, order, start));
      UnlistedStep(SweepStep(this, h, todo, order, start));
      order' := order + [h];
    }

    /** `hook.shutdown()` for a hook of the extension that is still initialized. It completes
        exactly when the hook is registered, and then the hook is no longer initialized, has left
        its list once and has run its teardown. Every other hook of the extension kept its flag,
        and its collaborator unless it shares the hook's; every other hook anywhere kept its list
        count and its registration. */
    method ShutdownOne(h: Hook) returns (s: Outcome<HookError>)
      requires h in hooks && h.initialized
      modifies h, h.point.hooks, h.kind.Host()
      ensures s == Pass <==> old(h.Registered())
      ensures s == Pass ==> !h.initialized && h.point.hooks.items == RemoveFirst(old(h.point.hooks.items), h)
      ensures s == Pass ==> h.TornDown(Pass)
      ensures s == Pass ==> forall g :: g in hooks && g != h ==> g.initialized == old(g.initialized)
      ensures s == Pass ==> forall g :: g in hooks && g.kind.Host() != null && g.kind.Host() != h.kind.Host() ==>
        unchanged(g.kind.Host())
      ensures s == Pass ==> forall g :: g in hooks && g.point.hooks != h.point.hooks ==>
        g.point.hooks.items == old(g.point.hooks.items)
      ensures s == Pass ==> forall g: Hook :: old(allocated(g)) && g != h ==>
        g.Count() == old(g.Count()) && (g.Registered() <==> old(g.Registered()))
    {
      HostIsNotExtension(h.kind, this);
      s := h.Shutdown();
      if s.Fail? {
        return;
      }
      OthersStay(h);
    }

    /** Skipping a hook that is no longer initialized keeps the sweep's progress. */
    lemma SweptSkip(h: Hook, todo: set<Hook>, order: seq<Hook>, start: SweepStart)
      requires Swept(todo, order, start) && h in todo && !h.initialized
      ensures Swept(todo - {h}, order, start)
    {
    }

    /** `Extension.shutdown`: by default, `shutdown_hooks`, with the same guarantees. */
    method Shutdown() returns (r: Outcome<HookError>, ghost order: seq<Hook>)
      modifies HookObjects()
      ensures hooks == old(hooks)
      ensures old(HooksReady()) ==> r == Pass
      ensures r == Pass ==> forall h :: h in hooks ==> !h.initialized
      ensures r == Pass ==> forall h :: h in hooks ==>
        old(h.Count()) == h.Count() + (if old(h.initialized) then 1 else 0)
      ensures r == Pass ==> forall h :: h in order <==> h in hooks && old(h.initialized)
      ensures r == Pass ==> forall i, j :: 0 <= i < j < |order| ==> order[i] != order[j]
      ensures r == Pass ==> forall g: Hook :: old(allocated(g)) && g !in hooks ==>
        g.Count() == old(g.Count()) && (g.Registered() <==> old(g.Registered()))
      ensures r == Pass ==> forall h :: h in hooks ==>
        && (h.kind.Columns? ==>
              h.kind.datagrid.calls == old(h.kind.datagrid.calls) + ColumnCallsOf(order, h.kind.datagrid))
        && (h.kind.URLs? ==>
              h.kind.dynamicUrls.calls == old(h.kind.dynamicUrls.calls) + URLCallsOf(order, h.kind.dynamicUrls))
        && (h.kind.SignalConnection? ==>
              h.kind.signal.calls == old(h.kind.signal.calls) + SignalCallsOf(order, h.kind.signal))
        && (h.kind.Template? ==>
              h.kind.index.byName == IndexAfter(old(h.kind.index.byName), order, h.kind.index))
      ensures r == Pass ==> forall h :: h in hooks ==>
        h.point.hooks.items == ListAfter(old(h.point.hooks.items), order, h.point.hooks)
    {
      r, order := ShutdownHooks();
    }
  }

  class Hook {
    const extension: Extension
    const point: HookPoint
    const kind: Kind
    var initialized: bool

    /** The hook can be shut down without an exception: it is in its hook point's list and, for
        a template hook, in the list kept for its name. */
    ghost predicate Registered()
      reads point.hooks, kind.Host()
    {
      Listed() && Named()
    }

    /** The hook is in its hook point's list. */
    ghost predicate Listed()
      reads point.hooks
    {
      this in point.hooks.items
    }

    /** A template hook is in the list kept for its name. */
    ghost predicate Named()
      reads kind.Host()
    {
      kind.Template? ==> kind.name in kind.index.byName && this in kind.index.byName[kind.name]
    }

    /** How many times the hook occurs in its hook point's list. */
    ghost function Count(): nat
      reads point.hooks
    {
      multiset(point.hooks.items)[this]
    }

    /** The base part of `ExtensionHook.__init__`: join the extension's hook set, append to the
        hook point's list, and become initialized. */
    method Register()
      modifies this, extension, point.hooks
      ensures initialized
      ensures extension.hooks == old(extension.hooks) + {this}
      ensures point.hooks.items == old(point.hooks.items) + [this]
    {
      extension.hooks := extension.hooks + {this};
      point.AddHook(this);
      initialized := true;
    }

    /** `ExtensionHook(extension)` for a hook class that adds no behaviour of its own. */
    constructor ExtensionHook(extension: Extension, point: HookPoint)
      modifies extension, point.hooks
      ensures this.extension == extension && this.point == point && kind == Plain
      ensures initialized
      ensures extension.hooks == old(extension.hooks) + {this}
      ensures point.hooks.items == old(point.hooks.items) + [this]
    {
      this.extension := extension;
      this.point := point;
      kind := Plain;
      new;
      Register();
    }

    /** `DataGridColumnsHook(extension, datagrid_cls, columns)`: registers, then calls
        `add_column` once per column, in order. */
    constructor DataGridColumnsHook(extension: Extension, point: HookPoint, datagrid: DataGrid, columns: seq<Column>)
      modifies extension, point.hooks, datagrid
      ensures this.extension == extension && this.point == point && kind == Columns(datagrid, columns)
      ensures initialized
      ensures extension.hooks == old(extension.hooks) + {this}
      ensures point.hooks.items == old(point.hooks.items) + [this]
      ensures datagrid.calls == old(datagrid.calls) + AddCalls(columns)
    {
      this.extension := extension;
      this.point := point;
      kind := Columns(datagrid, columns);
      new;
      Register();
      for i := 0 to |columns|
        modifies datagrid
        invariant datagrid.calls == old(datagrid.calls) + AddCalls(columns[..i])
      {
        datagrid.AddColumn(columns[i]);
        assert AddCalls(columns[..i + 1]) == AddCalls(columns[..i]) + [AddColumn(columns[i])];
      }
      assert columns[..|columns|] == columns;
    }

    /** `URLHook(extension, patterns)`: registers, then adds the patterns to the extension
        manager's dynamic URLs. */
    constructor URLHook(extension: Extension, point: HookPoint, patterns: seq<Pattern>)
      modifies extension, point.hooks, extension.manager.dynamicUrls
      ensures this.extension == extension && this.point == point
      ensures kind == URLs(extension.manager.dynamicUrls, patterns)
      ensures initialized
      ensures extension.hooks == old(extension.hooks) + {this}
      ensures point.hooks.items == old(point.hooks.items) + [this]
      ensures extension.manager.dynamicUrls.calls ==
        old(extension.manager.dynamicUrls.calls) + [AddPatterns(patterns)]
    {
      this.extension := extension;
      this.point := point;
      kind := URLs(extension.manager.dynamicUrls, patterns);
      new;
      Register();
      kind.dynamicUrls.AddPatterns(patterns);
    }

    /** `SignalHook(extension, signal, callback, sender)`: registers, draws a fresh
        `dispatch_uid`, and connects the callback under it with a strong reference. */
    constructor SignalHook(extension: Extension, point: HookPoint, signal: Signal, callback: Callback,
                           sender: Option<Sender>, uuids: UuidSource)
      requires uuids.Valid()
      modifies extension, point.hooks, signal, uuids
      ensures this.extension == extension && this.point == point
      ensures kind.SignalConnection? && kind.signal == signal && kind.callback == callback
      ensures kind.dispatchUid !in old(uuids.issued) && uuids.issued == old(uuids.issued) + {kind.dispatchUid}
      ensures uuids.Valid()
      ensures initialized
      ensures extension.hooks == old(extension.hooks) + {this}
      ensures point.hooks.items == old(point.hooks.items) + [this]
      ensures signal.calls == old(signal.calls) + [Connect(callback, sender, false, kind.dispatchUid)]
    {
      this.extension := extension;
      this.point := point;
      var uid := uuids.Uuid1();
      kind := SignalConnection(signal, callback, uid);
      new;
      Register();
      signal.Connect(callback, sender, false, uid);
    }

    /** `TemplateHook(extension, name, template_name, apply_to)`: registers, then appends
        itself to the list kept for `name`, creating that list on first use. */
    constructor TemplateHook(extension: Extension, point: HookPoint, index: TemplateIndex, name: string,
                             templateName: Option<string>, applyTo: seq<string>)
      modifies extension, point.hooks, index
      ensures this.extension == extension && this.point == point
      ensures kind == Template(index, name, templateName, applyTo)
      ensures initialized
      ensures extension.hooks == old(extension.hooks) + {this}
      ensures point.hooks.items == old(point.hooks.items) + [this]
      ensures index.byName == old(index.byName)[name := old(index.ByName(name)) + [this]]
      ensures index.ByName(name) == old(index.ByName(name)) + [this]
    {
      this.extension := extension;
      this.point := point;
      kind := Template(index, name, templateName, applyTo);
      new;
      Register();
      assert index.ByName(name) == old(index.ByName(name));
      if name !in index.byName {
        assert index.ByName(name) + [this] == [this];
        index.byName := index.byName[name := [this]];
      } else {
        index.byName := index.byName[name := index.byName[name] + [this]];
      }
    }

    /** `ExtensionHook.shutdown`: assert that the hook is initialized, leave the hook point's
        list, and clear the flag. */
    method ShutdownBase() returns (r: Outcome<HookError>)
      modifies this, point.hooks
      ensures !old(initialized) ==>
        r == Fail(NotInitialized) && !initialized && point.hooks.items == old(point.hooks.items)
      ensures old(initialized) && this !in old(point.hooks.items) ==>
        r == Fail(NotInList) && initialized && point.hooks.items == old(point.hooks.items)
      ensures old(initialized) && this in old(point.hooks.items) ==>
        r == Pass && !initialized && point.hooks.items == RemoveFirst(old(point.hooks.items), this)
    {
      if !initialized {
        return Fail(NotInitialized);
      }
      r := point.RemoveHook(this);
      if r.Pass? {
        initialized := false;
      }
    }

    /** The kind's own teardown, as seen after `shutdown`: `remove_column` for the columns added
        at construction, in the same order; `remove_patterns` for the same pattern list;
        `disconnect` by the same `dispatch_uid` only; or removal of this hook from its name's
        list, which raises when the name or the hook is missing. */
    twostate predicate TornDown(r: Outcome<HookError>)
      reads kind.Host()
    {
      match kind
      case Plain => r == Pass
      case Columns(d, cs) => r == Pass && d.calls == old(d.calls) + RemoveCalls(cs)
      case URLs(u, ps) => r == Pass && u.calls == old(u.calls) + [RemovePatterns(ps)]
      case SignalConnection(s, _, uid) => r == Pass && s.calls == old(s.calls) + [Disconnect(uid)]
      case Template(i, n, _, _) =>
        if n !in old(i.byName) then r == Fail(UnknownName) && i.byName == old(i.byName)
        else if this !in old(i.byName[n]) then r == Fail(NotInList) && i.byName == old(i.byName)
        else r == Pass && i.byName == old(i.byName)[n := RemoveFirst(old(i.byName[n]), this)]
    }

    /** `shutdown` of each hook kind: the base bookkeeping first, and the kind's own teardown
        only when that completes. It completes without an exception exactly when the hook is
        initialized and registered. */
    method Shutdown() returns (r: Outcome<HookError>)
      modifies this, point.hooks, kind.Host()
      ensures r.Pass? <==> old(initialized) && old(Registered())
      ensures !old(initialized) ==>
        && r == Fail(NotInitialized) && !initialized
        && point.hooks.items == old(point.hooks.items) && (kind.Host() != null ==> unchanged(kind.Host()))
      ensures old(initialized) && this !in old(point.hooks.items) ==>
        && r == Fail(NotInList) && initialized
        && point.hooks.items == old(point.hooks.items) && (kind.Host() != null ==> unchanged(kind.Host()))
      ensures old(initialized) && this in old(point.hooks.items) ==>
        && !initialized
        && point.hooks.items == RemoveFirst(old(point.hooks.items), this)
        && TornDown(r)
    {
      r := ShutdownBase();
      if r.Fail? {
        return;
      }
      match kind
      case Plain =>
      case Columns(d, cs) =>
        for i := 0 to |cs|
          modifies d
          invariant d.calls == old(d.calls) + RemoveCalls(cs[..i])
        {
          d.RemoveColumn(cs[i]);
          assert RemoveCalls(cs[..i + 1]) == RemoveCalls(cs[..i]) + [RemoveColumn(cs[i])];
        }
        assert cs[..|cs|] == cs;
      case URLs(u, ps) =>
        u.RemovePatterns(ps);
      case SignalConnection(s, _, uid) =>
        s.Disconnect(uid);
      case Template(i, n, _, _) =>
        if n !in i.byName {
          r := Fail(UnknownName);
        } else if this !in i.byName[n] {
          r := Fail(NotInList);
        } else {
          i.byName := i.byName[n := RemoveFirst(i.byName[n], this)];
        }
    }

    /** `TemplateHook.render_to_string`: push a scope, bind `'extension'`, render, and pop the
        scope again whether or not rendering fails. The template sees the caller's context plus
        one scope holding the binding; afterwards the context is exactly as before. */
    method RenderToString(context: Context<ContextValue>,
                          render: (Option<string>, seq<map<string, ContextValue>>) -> Result<string, string>)
      returns (r: Result<string, string>)
      requires kind.Template?
      requires context.Valid()
      modifies context
      ensures context.dicts == old(context.dicts)
      ensures r == render(kind.templateName, old(context.dicts) + [map["extension" := ExtensionValue(extension)]])
    {
      context.Push();
      context.Set("extension", ExtensionValue(extension));
      assert context.dicts == old(context.dicts) + [map["extension" := ExtensionValue(extension)]];
      r := render(kind.templateName, context.dicts);
      context.Pop();
    }

    /** Taking hook `h` out of its hook point's list leaves every other hook's membership and
        count in its own list as they were. */
    twostate lemma StaysListed(h: Hook)
      requires h != this
      requires h in old(h.point.hooks.items)
      requires h.point.hooks.items == RemoveFirst(old(h.point.hooks.items), h)
      requires point.hooks == h.point.hooks || point.hooks.items == old(point.hooks.items)
      ensures Count() == old(Count())
      ensures Listed() <==> old(Listed())
    {
      if point.hooks == h.point.hooks {
        RemoveFirstMembership(old(h.point.hooks.items), h, this);
        RemoveFirstMultiset(old(h.point.hooks.items), h);
      }
    }

    /** Shutting down hook `h` leaves every other template hook in the list kept for its name. */
    twostate lemma StaysNamed(h: Hook)
      requires h != this
      requires h.kind.Template? ==> h.TornDown(Pass) && old(h.Named())
      requires kind.Template? && !(h.kind.Template? && kind.index == h.kind.index) ==>
        kind.index.byName == old(kind.index.byName)
      ensures Named() <==> old(Named())
    {
      if kind.Template? && h.kind.Template? && kind.index == h.kind.index && kind.name == h.kind.name {
        RemoveFirstMembership(old(h.kind.index.byName[h.kind.name]), h, this);
      }
    }

    /** A completed shutdown of `h` changes no other hook's registration or count. */
    twostate lemma StaysRegistered(h: Hook)
      requires h != this
      requires old(h.Registered())
      requires h.point.hooks.items == RemoveFirst(old(h.point.hooks.items), h)
      requires h.kind.Template? ==> h.TornDown(Pass)
      requires point.hooks == h.point.hooks || point.hooks.items == old(point.hooks.items)
      requires kind.Template? && !(h.kind.Template? && kind.index == h.kind.index) ==>
        kind.index.byName == old(kind.index.byName)
      ensures Count() == old(Count())
      ensures Registered() <==> old(Registered())
    {
      StaysListed(h);
      StaysNamed(h);
    }
  }

  /** A completed shutdown of `h` changes no other hook's list count or registration: only
      `h`'s own list and `h`'s own collaborator changed, and it left both as `Shutdown`
      promises. */
  twostate lemma OthersStay(h: Hook)
    requires old(h.Registered())
    requires h.point.hooks.items == RemoveFirst(old(h.point.hooks.items), h)
    requires h.kind.Template? ==> h.TornDown(Pass)
    requires forall l: HookList :: old(allocated(l)) && l != h.point.hooks ==> l.items == old(l.items)
    requires forall i: TemplateIndex :: old(allocated(i)) && i != h.kind.Host() ==> i.byName == old(i.byName)
    ensures forall g: Hook :: old(allocated(g)) && g != h ==>
      g.Count() == old(g.Count()) && (g.Registered() <==> old(g.Registered()))
  {
    forall g: Hook | old(allocated(g)) && g != h
      ensures g.Count() == old(g.Count()) && (g.Registered() <==> old(g.Registered()))
    {
      g.StaysRegistered(h);
    }
  }

  /** The sweep's state at one step: extension `e` is about to leave `h` done. (Bundled into
      one value so that the step lemmas take a single argument.) */
  datatype SweepStep = SweepStep(e: Extension, h: Hook, todo: set<Hook>, order: seq<Hook>, start: SweepStart)

  /** One completed step keeps the sweep's progress: `h` leaves `todo` having been shut down and
      joins the end of `order`, and every other hook kept its flag, its count and its
      registration. */
  twostate lemma SweptStep(p: SweepStep)
    requires old(p.e.Swept(p.todo, p.order, p.start)) && p.h in p.todo
    requires p.e.hooks == old(p.e.hooks)
    requires old(p.h.initialized) && old(p.h.Registered()) && !p.h.initialized
    requires p.h.point.hooks.items == RemoveFirst(old(p.h.point.hooks.items), p.h)
    requires p.h.TornDown(Pass)
    requires forall g :: g in p.e.hooks && g != p.h ==> g.initialized == old(g.initialized)
    requires forall g: Hook :: old(allocated(g)) && g != p.h ==>
      g.Count() == old(g.Count()) && (g.Registered() <==> old(g.Registered()))
    ensures p.e.Swept(p.todo - {p.h}, p.order + [p.h], p.start)
  {
    RemoveFirstMultiset(old(p.h.point.hooks.items), p.h);
  }

  /** One completed step adds the hook's teardown to the state of each collaborator it uses, and
      nothing to the others. */
  twostate lemma LoggedStep(p: SweepStep)
    requires old(p.e.Logged(p.order, p.start.logs0))
    requires p.e.hooks == old(p.e.hooks)
    requires p.h.TornDown(Pass)
    requires forall g :: g in p.e.hooks && g.kind.Host() != null && g.kind.Host() != p.h.kind.Host() ==>
      unchanged(g.kind.Host())
    ensures p.e.Logged(p.order + [p.h], p.start.logs0)
  {
    var order, h := p.order, p.h;
    assert (order + [h])[..|order|] == order;
    forall g | g in p.e.hooks
      ensures match g.kind
        case Plain => true
        case Columns(d, _) => g in p.start.logs0.columns && d.calls == p.start.logs0.columns[g] + ColumnCallsOf(order + [h], d)
        case URLs(u, _) => g in p.start.logs0.urls && u.calls == p.start.logs0.urls[g] + URLCallsOf(order + [h], u)
        case SignalConnection(sig, _, _) =>
          g in p.start.logs0.signals && sig.calls == p.start.logs0.signals[g] + SignalCallsOf(order + [h], sig)
        case Template(i, _, _, _) => g in p.start.logs0.names && i.byName == IndexAfter(p.start.logs0.names[g], order + [h], i)
    {
      match g.kind
      case Plain =>
      case Columns(d, _) =>
        assert d.calls == old(d.calls) + ColumnTeardown(h, d);
      case URLs(u, _) =>
        assert u.calls == old(u.calls) + URLTeardown(h, u);
      case SignalConnection(sig, _, _) =>
        assert sig.calls == old(sig.calls) + SignalTeardown(h, sig);
      case Template(i, _, _, _) =>
        assert i.byName == IndexTeardown(old(i.byName), h, i);
    }
  }

  /** One completed step takes the hook out of its own list once, and leaves every other list
      as it was. */
  twostate lemma UnlistedStep(p: SweepStep)
    requires old(p.e.Unlisted(p.order, p.start.logs0.lists))
    requires p.e.hooks == old(p.e.hooks)
    requires p.h in old(p.h.point.hooks.items)
    requires p.h.point.hooks.items == RemoveFirst(old(p.h.point.hooks.items), p.h)
    requires forall g :: g in p.e.hooks && g.point.hooks != p.h.point.hooks ==>
      g.point.hooks.items == old(g.point.hooks.items)
    ensures p.e.Unlisted(p.order + [p.h], p.start.logs0.lists)
  {
    var order, h := p.order, p.h;
    assert (order + [h])[..|order|] == order;
    forall g | g in p.e.hooks
      ensures g in p.start.logs0.lists
      ensures g.point.hooks.items == ListAfter(p.start.logs0.lists[g], order + [h], g.point.hooks)
    {
      assert g.point.hooks.items == ListTeardown(old(g.point.hooks.items), h, g.point.hooks);
    }
  }
}
