/** Values and small facts that several modules share. */
module Base {

  datatype Option<+T> = None | Some(value: T)

  /** What a transaction reports: its result, or the exception that rolled it back. */
  datatype Outcome<+T> = Ok(value: T) | Err(error: Fault)

  /** The exceptions of src/run_domain/execution.py and src/run_domain/results.py. */
  datatype Fault =
    | LeaseConflict
    | RunNotExecutable
    | SegmentClosed
    | StaleFencingToken
    | TranscriptVersionConflict
    | OperationUncertain
    | MemoryContextRevoked   // src/persistence/memory_context.py
    | Rejected        // ValueError, ResourceNotFound and constraint violations

  datatype Unit = Unit

  lemma {:induction false} ConcatAssociates<T>(a: seq<T>, b: seq<T>, c: seq<T>)
    ensures (a + b) + c == a + (b + c)
  {
  }

  lemma {:induction false} Fewer<T>(a: set<T>, b: set<T>)
    requires a <= b
    ensures |a| <= |b|
    decreases b
  {
    if b != {} {
      var x :| x in b;
      Fewer(a - {x}, b - {x});
      assert a == if x in a then (a - {x}) + {x} else a - {x};
    }
  }
}
