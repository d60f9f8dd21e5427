/** References to stages of a running pipeline (data_plumber/ref.py).
    The source's abstract base class with one subclass per reference kind
    becomes a closed datatype with a single `Get`. */
module Refs {
  import opened Wrappers
  import opened Contexts

  /** Python's `s[i]` on a list, with the `IndexError` it raises turned
      into `None`: negative indices count from the end, so the valid
      indices are `-|s| .. |s|-1`. */
  function Index<T>(s: seq<T>, i: int): (r: Option<T>)
    ensures r.None? <==> !(-|s| <= i < |s|)
    ensures r.Some? ==> r.value in s
    ensures r.Some? && i < 0 ==> r.value == s[|s| + i]
    ensures r.Some? && 0 <= i ==> r.value == s[i]
  {
    if 0 <= i < |s| then Some(s[i])
    else if -|s| <= i < 0 then Some(s[|s| + i])
    else None
  }

  /** The reference kinds. `Previous` and `First` carry the behaviour shown
      in ref.py; `ById` and `ByIncrement` are the keys that `Stage`
      construction produces from string and integer keys, and are used
      here only as tags. */
  datatype StageRef =
    | Previous
    | First
    | ById(id: string)
    | ByIncrement(delta: int)
  {
    /** The kinds whose `get` this model defines. */
    predicate Resolvable() {
      Previous? || First?
    }

    /** Resolves the reference against the trace of `context`: the newest
        record for `Previous`, the oldest for `First`, and `None` when the
        reference cannot be resolved because nothing has been recorded. */
    function Get<V>(context: PipelineContext<V>): (r: Option<Record>)
      requires Resolvable()
      ensures r.None? <==> |context.records| == 0
      ensures r.Some? ==> r.value in context.records
      ensures Previous? && |context.records| > 0 ==> r == Some(context.records[|context.records| - 1])
      ensures First? && |context.records| > 0 ==> r == Some(context.records[0])
    {
      match this
      case Previous => Index(context.records, -1)
      case First => Index(context.records, 0)
    }
  }

  /** `Get` reads nothing of the context but its trace: the keyword
      arguments, the output and the counter do not influence it. */
  lemma GetReadsOnlyRecords<V>(ref: StageRef, c: PipelineContext<V>, d: PipelineContext<V>)
    requires ref.Resolvable()
    requires c.records == d.records
    ensures ref.Get(c) == ref.Get(d)
  {
  }

  /** With exactly one record in the trace, `Previous` and `First` agree. */
  lemma SingleRecordAgree<V>(c: PipelineContext<V>)
    requires |c.records| == 1
    ensures Previous.Get(c) == First.Get(c) == Some(c.records[0])
  {
  }

  /** Once a record has been appended to the trace, `Previous` resolves to
      that record. */
  lemma PreviousAfterAppend<V>(c: PipelineContext<V>, rec: Record)
    ensures Previous.Get(c.(records := c.records + [rec])) == Some(rec)
  {
  }

  /** Appending to the trace never changes what `First` resolves to once
      the trace is non-empty; on an empty trace the new record becomes the
      first one. */
  lemma FirstStableUnderAppend<V>(c: PipelineContext<V>, rec: Record)
    ensures First.Get(c.(records := c.records + [rec])) ==
            (if |c.records| == 0 then Some(rec) else First.Get(c))
  {
  }
}
