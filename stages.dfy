/** The `Stage` class of data_plumber/stage.py: a processing unit whose
    constructor normalises the `requires` mapping and installs default
    callbacks, and which exposes what it stored through read-only
    properties. */
module Stages {
  import opened Wrappers
  import opened Contexts
  import opened Refs

  /** A requirement value: an exact status, or a predicate on the status. */
  datatype Requirement = Exact(status: int) | Pred(test: int -> bool)

  /** A key of the `requires` dictionary as a caller may write it: a stage
      reference, a stage identifier (`str`) or a relative index (`int`). */
  datatype RequiresKey = RefKey(ref: StageRef) | StrKey(id: string) | IntKey(offset: int)

  /** The `requires` dictionary as passed, as its ordered list of items. */
  type RequiresItems = seq<(RequiresKey, Requirement)>

  /** A caller-supplied callback; Python passes it everything as keyword
      arguments. Its body is opaque to the model. */
  type Callback<!V, R> = Kwargs<V> -> R

  /** The reference a `requires` key is stored under. */
  function NormalizeKey(k: RequiresKey): StageRef {
    match k
    case StrKey(id) => ById(id)
    case IntKey(offset) => ByIncrement(offset)
    case RefKey(ref) => ref
  }

  /** The normalised requirements: the items stored one after the other
      into an initially empty dictionary, each under its normalised key. */
  function Normalized(items: RequiresItems): map<StageRef, Requirement> {
    if items == [] then map[]
    else
      var last := items[|items| - 1];
      Normalized(items[..|items| - 1])[NormalizeKey(last.0) := last.1]
  }

  /** The keys of the normalised mapping are exactly the normalised keys
      of the input: none is lost and none is invented. */
  lemma {:induction false} NormalizedKeys(items: RequiresItems)
    ensures Normalized(items).Keys == set i | 0 <= i < |items| :: NormalizeKey(items[i].0)
  {
    if items != [] {
      var front := items[..|items| - 1];
      NormalizedKeys(front);
      var s := set i | 0 <= i < |items| :: NormalizeKey(items[i].0);
      var t := set i | 0 <= i < |front| :: NormalizeKey(front[i].0);
      assert s == t + {NormalizeKey(items[|items| - 1].0)} by {
        forall r | r in s ensures r in t + {NormalizeKey(items[|items| - 1].0)} {
          var i :| 0 <= i < |items| && NormalizeKey(items[i].0) == r;
          if i < |front| { assert front[i] == items[i]; }
        }
        forall r | r in t ensures r in s {
          var i :| 0 <= i < |front| && NormalizeKey(front[i].0) == r;
          assert items[i] == front[i];
        }
      }
    }
  }

  /** An input item that no later item overrides is stored under its
      normalised key with its value unchanged. */
  lemma {:induction false} NormalizedLastWins(items: RequiresItems, i: nat)
    requires i < |items|
    requires forall j :: i < j < |items| ==> NormalizeKey(items[j].0) != NormalizeKey(items[i].0)
    ensures NormalizeKey(items[i].0) in Normalized(items)
    ensures Normalized(items)[NormalizeKey(items[i].0)] == items[i].1
  {
    if i < |items| - 1 {
      var front := items[..|items| - 1];
      assert front[i] == items[i];
      NormalizedLastWins(front, i);
    }
  }

  /** Every stored entry is the value of one input item, the last one whose
      key normalises to the stored key: no value is invented or altered. */
  lemma {:induction false} NormalizedFromInput(items: RequiresItems, r: StageRef)
    requires r in Normalized(items)
    ensures exists i :: 0 <= i < |items| && NormalizeKey(items[i].0) == r &&
                        Normalized(items)[r] == items[i].1 &&
                        forall j :: i < j < |items| ==> NormalizeKey(items[j].0) != r
  {
    var n := |items|;
    if NormalizeKey(items[n - 1].0) != r {
      var front := items[..n - 1];
      NormalizedFromInput(front, r);
      var i :| 0 <= i < |front| && NormalizeKey(front[i].0) == r &&
               Normalized(front)[r] == front[i].1 &&
               forall j :: i < j < |front| ==> NormalizeKey(front[j].0) != r;
      assert items[i] == front[i];
      assert forall j :: i < j < n - 1 ==> items[j] == front[j];
    }
  }

  /** A string key `id` is stored as `ById(id)` with its value. */
  lemma {:induction false} StrKeyStored(items: RequiresItems, i: nat, id: string)
    requires i < |items| && items[i].0 == StrKey(id)
    requires forall j :: i < j < |items| ==> NormalizeKey(items[j].0) != ById(id)
    ensures ById(id) in Normalized(items) && Normalized(items)[ById(id)] == items[i].1
  {
    NormalizedLastWins(items, i);
  }

  /** An integer key `offset` is stored as `ByIncrement(offset)` with its
      value. */
  lemma {:induction false} IntKeyStored(items: RequiresItems, i: nat, offset: int)
    requires i < |items| && items[i].0 == IntKey(offset)
    requires forall j :: i < j < |items| ==> NormalizeKey(items[j].0) != ByIncrement(offset)
    ensures ByIncrement(offset) in Normalized(items) &&
            Normalized(items)[ByIncrement(offset)] == items[i].1
  {
    NormalizedLastWins(items, i);
  }

  /** A key that already is a reference is stored as it is, with its
      value. */
  lemma {:induction false} RefKeyStored(items: RequiresItems, i: nat, ref: StageRef)
    requires i < |items| && items[i].0 == RefKey(ref)
    requires forall j :: i < j < |items| ==> NormalizeKey(items[j].0) != ref
    ensures ref in Normalized(items) && Normalized(items)[ref] == items[i].1
  {
    NormalizedLastWins(items, i);
  }

  class Stage<V> {
    var requirements: Option<map<StageRef, Requirement>>
    var primerFn: Callback<V, Option<V>>
    var actionFn: Callback<V, Option<V>>
    var exportFn: Callback<V, Option<Kwargs<V>>>
    var statusFn: Callback<V, int>
    var messageFn: Callback<V, string>

    /** Builds a stage. `None` for `requires` means "no requirements"; for
        a callback it means the argument was omitted and the default is
        installed (for `export`, Python's explicit `None` is the same). */
    constructor (
      required: Option<RequiresItems>,
      primer: Option<Callback<V, Option<V>>>,
      action: Option<Callback<V, Option<V>>>,
      exporter: Option<Callback<V, Option<Kwargs<V>>>>,
      status: Option<Callback<V, int>>,
      message: Option<Callback<V, string>>
    )
      ensures required.None? ==> Requires() == None
      ensures required.Some? ==> Requires() == Some(Normalized(required.value))
      ensures required.Some? ==>
                Requires().value.Keys == set i | 0 <= i < |required.value| :: NormalizeKey(required.value[i].0)
      ensures primer.Some? ==> Primer() == primer.value
      ensures primer.None? ==> forall kw :: Primer()(kw) == None
      ensures action.Some? ==> Action() == action.value
      ensures action.None? ==> forall kw :: Action()(kw) == None
      ensures exporter.Some? ==> Export() == exporter.value
      ensures exporter.None? ==> forall kw :: Export()(kw) == Some(map[])
      ensures status.Some? ==> Status() == status.value
      ensures status.None? ==> forall kw :: Status()(kw) == 0
      ensures message.Some? ==> Message() == message.value
      ensures message.None? ==> forall kw :: Message()(kw) == ""
    {
      new;
      if required.None? {
        requirements := None;
      } else {
        var items := required.value;
        requirements := Some(map[]);
        var i := 0;
        while i < |items|
          invariant 0 <= i <= |items|
          invariant requirements == Some(Normalized(items[..i]))
        {
          var (k, v) := items[i];
          assert items[..i + 1][..i] == items[..i];
          match k {
            case StrKey(id) =>
              requirements := Some(requirements.value[ById(id) := v]);
            case IntKey(offset) =>
              requirements := Some(requirements.value[ByIncrement(offset) := v]);
            case RefKey(ref) =>
              requirements := Some(requirements.value[ref := v]);
          }
          i := i + 1;
        }
        assert items[..i] == items;
        NormalizedKeys(items);
      }
      match primer {
        case Some(p) => primerFn := p;
        case None => primerFn := kw => None;
      }
      match action {
        case Some(a) => actionFn := a;
        case None => actionFn := kw => None;
      }
      if exporter.None? {
        exportFn := kw => Some(map[]);
      } else {
        exportFn := exporter.value;
      }
      match status {
        case Some(st) => statusFn := st;
        case None => statusFn := kw => 0;
      }
      match message {
        case Some(m) => messageFn := m;
        case None => messageFn := kw => "";
      }
    }

    /** The stored requirements, keyed by stage references. */
    function Requires(): Option<map<StageRef, Requirement>>
      reads this
    {
      requirements
    }

    /** The stored `primer` callback. */
    function Primer(): Callback<V, Option<V>>
      reads this
    {
      primerFn
    }

    /** The stored `action` callback. */
    function Action(): Callback<V, Option<V>>
      reads this
    {
      actionFn
    }

    /** The stored `export` callback. */
    function Export(): Callback<V, Option<Kwargs<V>>>
      reads this
    {
      exportFn
    }

    /** The stored `status` callback. */
    function Status(): Callback<V, int>
      reads this
    {
      statusFn
    }

    /** The stored `message` callback. */
    function Message(): Callback<V, string>
      reads this
    {
      messageFn
    }
  }
}
