/** The fields of `basicClient` that its `mutex` protects, and the five critical
    sections that touch them, as functions. `C` stands for the calls in the table:
    identifiers in the step machine, heap objects in the class. */
module PendingCalls {
  import opened Protocol

  datatype Table<+C> = Table(last: nat, pending: map<nat, C>, closing: bool, shutdown: bool)

  const EMPTY: Table<nat> := Table(0, map[], false, false)

  datatype Admission<+C> = Refused | Recalled | Admitted(table: Table<C>, number: nat)

  // The first section of `send`: `mark` is the call's `seq` field.
  function Admit<C>(t: Table<C>, call: C, mark: nat): Admission<C> {
    if t.shutdown || t.closing then Refused
    else if mark != 0 then Recalled
    else Admitted(t.(last := t.last + 1, pending := t.pending[t.last + 1 := call]), t.last + 1)
  }

  function Lookup<C>(t: Table<C>, n: nat): Option<C> {
    if n in t.pending then Some(t.pending[n]) else None
  }

  // `delete(client.pending, n)`.
  function Remove<C>(t: Table<C>, n: nat): Table<C> {
    t.(pending := t.pending - {n})
  }

  // The error the remaining calls get when the reader stops with `cause`.
  function StopError(cause: Error, closing: bool): Error {
    if cause == Io(Eof) then (if closing then Shutdown else UnexpectedEof) else cause
  }
}
