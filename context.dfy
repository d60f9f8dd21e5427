/** The execution context that a `Pipeline` run hands to stage references
    (data_plumber/context.py). It is a plain record without behaviour. */
module Contexts {

  /** One entry of a run's trace: the message and the integer status that
      an executed stage produced. The record type itself lives in
      data_plumber/output.py, which is not part of this model; the tests
      read it as the pair `(message, status)`. */
  datatype Record = Record(message: string, status: int)

  /** Python's keyword-argument dictionary; `V` stands for Python's `Any`. */
  type Kwargs<V> = map<string, V>

  /** The four fields of the `PipelineContext` dataclass: the trace so far
      (oldest record first), the run's keyword arguments, the shared
      output object and the stage counter. */
  datatype PipelineContext<V> = PipelineContext(
    records: seq<Record>,
    kwargs: Kwargs<V>,
    out: V,
    count: int
  )
}
