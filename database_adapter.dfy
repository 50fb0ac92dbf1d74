/**
 * The storage-adapter base class: default transaction hooks that pass
 * through, CRUD operations that report "not implemented", and the
 * add/upsert/remove protocol (start a transaction, run the batch operation,
 * then end the transaction on success or mark it failed on error, and call
 * back exactly once).
 *
 * A concrete adapter overrides the hooks and the batch operations; here they
 * are the function values of a `Hooks` record, each answering with the one
 * reply its callback receives.
 */
module DatabaseAdapters {
  import opened Wrappers

  /** An error made by the library's error builder: a message and an HTTP status. */
  datatype Error = Error(message: string, status: int)

  /** The CRUD operations of the adapter interface. */
  datatype Operation =
    | AddItem | AddItems | UpsertItem | UpsertItems | RemoveItem | RemoveItems
    | RemoveItemById | RemoveItemsById | FindItemById | FindItemsById | FindItemInListById

  function OperationName(op: Operation): string {
    match op
    case AddItem => "addItem"
    case AddItems => "addItems"
    case UpsertItem => "upsertItem"
    case UpsertItems => "upsertItems"
    case RemoveItem => "removeItem"
    case RemoveItems => "removeItems"
    case RemoveItemById => "removeItemById"
    case RemoveItemsById => "removeItemsById"
    case FindItemById => "findItemById"
    case FindItemsById => "findItemsById"
    case FindItemInListById => "findItemInListById"
  }

  const NOT_IMPLEMENTED_PREFIX := "Current database adapter has not implemented the "
  const NOT_IMPLEMENTED_SUFFIX := " method."

  /** The error a base operation reports: it names the operation, with status 500. */
  function NotImplemented(op: Operation): (e: Error)
    ensures e.status == 500
    ensures |e.message| == |NOT_IMPLEMENTED_PREFIX| + |OperationName(op)| + |NOT_IMPLEMENTED_SUFFIX|
    ensures e.message[|NOT_IMPLEMENTED_PREFIX|..|NOT_IMPLEMENTED_PREFIX| + |OperationName(op)|] == OperationName(op)
  {
    var m := NOT_IMPLEMENTED_PREFIX + OperationName(op) + NOT_IMPLEMENTED_SUFFIX;
    assert m[|NOT_IMPLEMENTED_PREFIX|..|NOT_IMPLEMENTED_PREFIX| + |OperationName(op)|] == OperationName(op);
    Error(m, 500)
  }

  /** Different operations report different errors, so the error tells which one is missing. */
  lemma NotImplementedIdentifiesOperation(a: Operation, b: Operation)
    requires NotImplemented(a) == NotImplemented(b)
    ensures a == b
  {
    var p := |NOT_IMPLEMENTED_PREFIX|;
    assert |OperationName(a)| == |OperationName(b)|;
    assert OperationName(a) == NotImplemented(a).message[p..p + |OperationName(a)|];
    assert OperationName(a) == OperationName(b);
  }

  /** What a callback receives: an error or nothing, and a value. */
  datatype Reply<T> = Reply(err: Option<Error>, value: T)

  /** A base CRUD operation: calls back with the not-implemented error and no value. */
  function BaseOperation<T>(op: Operation): (r: Reply<Option<T>>)
    ensures r.err.Some? && r.err.value == NotImplemented(op)
    ensures r.value.None?
  {
    Reply(Some(NotImplemented(op)), None)
  }

  /** The kind of transaction handed to startTransaction. */
  datatype TxKind = Insert | Upsert | Delete

  function TxKindName(kind: TxKind): string {
    match kind
    case Insert => "insert"
    case Upsert => "upsert"
    case Delete => "delete"
  }

  /** A transaction object, as an adapter chooses to fill it. */
  datatype Transaction = Transaction(data: map<string, string>)

  /** A stored item. */
  type Item = map<string, int>

  /** The options of add/upsert/remove; the fixture id names the schema. */
  datatype Options = Options(fixtureId: Option<string>)

  /** The overridable members of an adapter, each answering with the reply it calls back with. */
  datatype Hooks = Hooks(
    startTransaction: (TxKind, seq<Item>, Options) -> Reply<Transaction>,
    endTransaction: Transaction -> Reply<Transaction>,
    failedTransaction: (Transaction, Error) -> Reply<Transaction>,
    addItems: (Option<string>, seq<Item>) -> Reply<Option<seq<Item>>>,
    upsertItems: (seq<Item>, Option<string>) -> Reply<Option<seq<Item>>>,
    removeItems: (seq<Item>, Option<string>) -> Reply<Option<seq<Item>>>)

  /** The base class's members: pass-through transaction hooks and unimplemented batch operations. */
  function DefaultHooks(): (h: Hooks)
    ensures forall kind, items, options :: h.startTransaction(kind, items, options) == Reply(None, Transaction(map[]))
    ensures forall tx :: h.endTransaction(tx) == Reply(None, tx)
    ensures forall tx, e :: h.failedTransaction(tx, e) == Reply(None, tx)
    ensures forall schema, items :: h.addItems(schema, items) == BaseOperation(AddItems)
    ensures forall items, schema :: h.upsertItems(items, schema) == BaseOperation(UpsertItems)
    ensures forall items, schema :: h.removeItems(items, schema) == BaseOperation(RemoveItems)
  {
    Hooks(
      (kind, items, options) => Reply(None, Transaction(map[])),
      tx => Reply(None, tx),
      (tx, e) => Reply(None, tx),
      (schema, items) => BaseOperation(AddItems),
      (items, schema) => BaseOperation(UpsertItems),
      (items, schema) => BaseOperation(RemoveItems))
  }

  /** The error argument of the caller's callback. */
  datatype CallbackError =
    | NoError
    | Single(error: Error)
    | Both(cause: Error, transactionError: Error)  // [err, transactionError]

  /** The result argument of the caller's callback. */
  datatype CudResult = CudResult(fixtureId: Option<string>, transaction: Transaction, results: Option<seq<Item>>)

  /** One step of the protocol: a hook called, or the caller's callback invoked. */
  datatype Event =
    | Started(kind: string)  // the kind name passed to startTransaction
    | BatchRun(op: Operation)
    | FailedTx
    | EndedTx
    | Called(err: CallbackError, result: CudResult)

  /** The batch operation each kind of transaction runs. */
  function BatchOperation(kind: TxKind): Operation {
    match kind
    case Insert => AddItems
    case Upsert => UpsertItems
    case Delete => RemoveItems
  }

  /** The batch operation's reply; add passes (fixtureId, items), upsert and remove (items, fixtureId). */
  function BatchReply(h: Hooks, kind: TxKind, items: seq<Item>, fixtureId: Option<string>): Reply<Option<seq<Item>>> {
    match kind
    case Insert => h.addItems(fixtureId, items)
    case Upsert => h.upsertItems(items, fixtureId)
    case Delete => h.removeItems(items, fixtureId)
  }

  /** The events of one add/upsert/remove, in order, ending with the callback. */
  function Protocol(h: Hooks, kind: TxKind, items: seq<Item>, options: Options): (trace: seq<Event>)
    ensures 2 <= |trace| <= 4
    ensures trace[0] == Started(TxKindName(kind))
    ensures trace[|trace| - 1].Called? && trace[|trace| - 1].result.fixtureId == options.fixtureId
    ensures forall i :: 0 <= i < |trace| - 1 ==> !trace[i].Called?
    ensures h.startTransaction(kind, items, options).err.None? <==> trace[1] == BatchRun(BatchOperation(kind))
  {
    var start := h.startTransaction(kind, items, options);
    if start.err.Some? then
      [Started(TxKindName(kind)), Called(Single(start.err.value), CudResult(options.fixtureId, start.value, Some([])))]
    else
      var batch := BatchReply(h, kind, items, options.fixtureId);
      if batch.err.Some? then
        var failed := h.failedTransaction(start.value, batch.err.value);
        var err := if failed.err.Some? then Both(batch.err.value, failed.err.value) else Single(batch.err.value);
        [Started(TxKindName(kind)), BatchRun(BatchOperation(kind)), FailedTx,
         Called(err, CudResult(options.fixtureId, failed.value, batch.value))]
      else
        var end := h.endTransaction(start.value);
        var err := if end.err.Some? then Single(end.err.value) else NoError;
        [Started(TxKindName(kind)), BatchRun(BatchOperation(kind)), EndedTx,
         Called(err, CudResult(options.fixtureId, end.value, batch.value))]
  }

  /** How many times the caller's callback is invoked in a trace. */
  function Callbacks(trace: seq<Event>): nat {
    if trace == [] then 0
    else Callbacks(trace[..|trace| - 1]) + (if trace[|trace| - 1].Called? then 1 else 0)
  }

  lemma {:induction false} CallbacksAppend(a: seq<Event>, b: seq<Event>)
    ensures Callbacks(a + b) == Callbacks(a) + Callbacks(b)
  {
    if b != [] {
      assert (a + b)[..|a + b| - 1] == a + b[..|b| - 1];
      assert (a + b)[|a + b| - 1] == b[|b| - 1];
      CallbacksAppend(a, b[..|b| - 1]);
    } else {
      assert a + b == a;
    }
  }

  /** A trace with no callback in it. */
  lemma {:induction false} NoCallbacks(trace: seq<Event>)
    requires forall i :: 0 <= i < |trace| ==> !trace[i].Called?
    ensures Callbacks(trace) == 0
  {
    if trace != [] {
      NoCallbacks(trace[..|trace| - 1]);
    }
  }

  /**
   * On every path the callback is invoked exactly once, last, with the
   * options' fixture id; the first step starts a transaction of the kind.
   */
  lemma CallbackExactlyOnce(h: Hooks, kind: TxKind, items: seq<Item>, options: Options)
    ensures var trace := Protocol(h, kind, items, options);
            && 2 <= |trace|
            && trace[0] == Started(TxKindName(kind))
            && Callbacks(trace) == 1
            && trace[|trace| - 1].Called?
            && trace[|trace| - 1].result.fixtureId == options.fixtureId
  {
    var trace := Protocol(h, kind, items, options);
    var n := |trace| - 1;
    assert trace == trace[..n] + [trace[n]];
    NoCallbacks(trace[..n]);
    CallbacksAppend(trace[..n], [trace[n]]);
    assert Callbacks([trace[n]]) == 1 by {
      assert [trace[n]][..0] == [];
    }
  }

  /** When startTransaction fails, its error is reported with no results and no batch is run. */
  lemma StartFailure(h: Hooks, kind: TxKind, items: seq<Item>, options: Options)
    requires h.startTransaction(kind, items, options).err.Some?
    ensures var start := h.startTransaction(kind, items, options);
            var trace := Protocol(h, kind, items, options);
            && (forall e :: e in trace ==> !e.BatchRun? && !e.FailedTx? && !e.EndedTx?)
            && trace[|trace| - 1] == Called(Single(start.err.value), CudResult(options.fixtureId, start.value, Some([])))
  {
  }

  /**
   * When the batch fails, failedTransaction is called and endTransaction is
   * not; the batch error comes back alone, or paired with the transaction
   * error, with the batch's partial results.
   */
  lemma BatchFailure(h: Hooks, kind: TxKind, items: seq<Item>, options: Options)
    requires h.startTransaction(kind, items, options).err.None?
    requires BatchReply(h, kind, items, options.fixtureId).err.Some?
    ensures var start := h.startTransaction(kind, items, options);
            var batch := BatchReply(h, kind, items, options.fixtureId);
            var failed := h.failedTransaction(start.value, batch.err.value);
            var trace := Protocol(h, kind, items, options);
            && BatchRun(BatchOperation(kind)) in trace
            && FailedTx in trace && EndedTx !in trace
            && trace[|trace| - 1].result == CudResult(options.fixtureId, failed.value, batch.value)
            && (failed.err.None? ==> trace[|trace| - 1].err == Single(batch.err.value))
            && (failed.err.Some? ==> trace[|trace| - 1].err == Both(batch.err.value, failed.err.value))
  {
  }

  /**
   * When the batch succeeds, endTransaction is called and failedTransaction is
   * not; its error, if any, is reported with the batch's results.
   */
  lemma BatchSuccess(h: Hooks, kind: TxKind, items: seq<Item>, options: Options)
    requires h.startTransaction(kind, items, options).err.None?
    requires BatchReply(h, kind, items, options.fixtureId).err.None?
    ensures var start := h.startTransaction(kind, items, options);
            var batch := BatchReply(h, kind, items, options.fixtureId);
            var end := h.endTransaction(start.value);
            var trace := Protocol(h, kind, items, options);
            && BatchRun(BatchOperation(kind)) in trace
            && EndedTx in trace && FailedTx !in trace
            && trace[|trace| - 1].result == CudResult(options.fixtureId, end.value, batch.value)
            && (end.err.None? ==> trace[|trace| - 1].err == NoError)
            && (end.err.Some? ==> trace[|trace| - 1].err == Single(end.err.value))
  {
  }

  /** The base adapter never succeeds: the batch reports not implemented and the empty transaction survives. */
  lemma DefaultAdapterFails(kind: TxKind, items: seq<Item>, options: Options)
    ensures var trace := Protocol(DefaultHooks(), kind, items, options);
            trace == [Started(TxKindName(kind)), BatchRun(BatchOperation(kind)), FailedTx,
                      Called(Single(NotImplemented(BatchOperation(kind))),
                             CudResult(options.fixtureId, Transaction(map[]), None))]
  {
  }

  /** A storage adapter: its members, and the record of the steps it has taken. */
  class DatabaseAdapter {
    const hooks: Hooks
    var trace: seq<Event>

    constructor (hooks: Hooks)
      ensures this.hooks == hooks && trace == []
    {
      this.hooks := hooks;
      trace := [];
    }

    /** The base class itself, with none of its members overridden. */
    constructor Base()
      ensures hooks == DefaultHooks() && trace == []
    {
      hooks := DefaultHooks();
      trace := [];
    }

    method StartTransaction(kind: TxKind, items: seq<Item>, options: Options) returns (r: Reply<Transaction>)
      modifies this`trace
      ensures r == hooks.startTransaction(kind, items, options)
      ensures trace == old(trace) + [Started(TxKindName(kind))]
    {
      r := hooks.startTransaction(kind, items, options);
      trace := trace + [Started(TxKindName(kind))];
    }

    method EndTransaction(tx: Transaction) returns (r: Reply<Transaction>)
      modifies this`trace
      ensures r == hooks.endTransaction(tx)
      ensures trace == old(trace) + [EndedTx]
    {
      r := hooks.endTransaction(tx);
      trace := trace + [EndedTx];
    }

    method FailedTransaction(tx: Transaction, err: Error) returns (r: Reply<Transaction>)
      modifies this`trace
      ensures r == hooks.failedTransaction(tx, err)
      ensures trace == old(trace) + [FailedTx]
    {
      r := hooks.failedTransaction(tx, err);
      trace := trace + [FailedTx];
    }

    method Batch(kind: TxKind, items: seq<Item>, fixtureId: Option<string>) returns (r: Reply<Option<seq<Item>>>)
      modifies this`trace
      ensures r == BatchReply(hooks, kind, items, fixtureId)
      ensures trace == old(trace) + [BatchRun(BatchOperation(kind))]
    {
      r := BatchReply(hooks, kind, items, fixtureId);
      trace := trace + [BatchRun(BatchOperation(kind))];
    }

    /** Invokes the caller's callback. */
    method Callback(err: CallbackError, result: CudResult) returns (e: CallbackError, res: CudResult)
      modifies this`trace
      ensures e == err && res == result
      ensures trace == old(trace) + [Called(err, result)]
    {
      trace := trace + [Called(err, result)];
      e, res := err, result;
    }

    /** The shared body of add, upsert and remove. */
    method Run(kind: TxKind, items: seq<Item>, options: Options) returns (err: CallbackError, result: CudResult)
      modifies this`trace
      ensures trace == old(trace) + Protocol(hooks, kind, items, options)
      ensures Protocol(hooks, kind, items, options)[|Protocol(hooks, kind, items, options)| - 1] == Called(err, result)
    {
      var start := StartTransaction(kind, items, options);
      if start.err.Some? {
        err, result := Callback(Single(start.err.value), CudResult(options.fixtureId, start.value, Some([])));
      } else {
        var batch := Batch(kind, items, options.fixtureId);
        if batch.err.Some? {
          var failed := FailedTransaction(start.value, batch.err.value);
          if failed.err.Some? {
            err, result := Callback(Both(batch.err.value, failed.err.value),
                                    CudResult(options.fixtureId, failed.value, batch.value));
          } else {
            err, result := Callback(Single(batch.err.value), CudResult(options.fixtureId, failed.value, batch.value));
          }
        } else {
          var end := EndTransaction(start.value);
          if end.err.Some? {
            err, result := Callback(Single(end.err.value), CudResult(options.fixtureId, end.value, batch.value));
          } else {
            err, result := Callback(NoError, CudResult(options.fixtureId, end.value, batch.value));
          }
        }
      }
    }

    /** add: an 'insert' transaction around addItems. */
    method Add(items: seq<Item>, options: Options) returns (err: CallbackError, result: CudResult)
      modifies this`trace
      ensures trace == old(trace) + Protocol(hooks, TxKind.Insert, items, options)
      ensures trace[|old(trace)|] == Started("insert")
      ensures Callbacks(trace[|old(trace)|..]) == 1
      ensures trace[|trace| - 1] == Called(err, result)
    {
      err, result := Run(TxKind.Insert, items, options);
      CallbackExactlyOnce(hooks, TxKind.Insert, items, options);
      assert trace[|old(trace)|..] == Protocol(hooks, TxKind.Insert, items, options);
    }

    /** upsert: an 'upsert' transaction around upsertItems. */
    method Upsert(items: seq<Item>, options: Options) returns (err: CallbackError, result: CudResult)
      modifies this`trace
      ensures trace == old(trace) + Protocol(hooks, TxKind.Upsert, items, options)
      ensures trace[|old(trace)|] == Started("upsert")
      ensures Callbacks(trace[|old(trace)|..]) == 1
      ensures trace[|trace| - 1] == Called(err, result)
    {
      err, result := Run(TxKind.Upsert, items, options);
      CallbackExactlyOnce(hooks, TxKind.Upsert, items, options);
      assert trace[|old(trace)|..] == Protocol(hooks, TxKind.Upsert, items, options);
    }

    /** remove: a 'delete' transaction around removeItems. */
    method Remove(items: seq<Item>, options: Options) returns (err: CallbackError, result: CudResult)
      modifies this`trace
      ensures trace == old(trace) + Protocol(hooks, TxKind.Delete, items, options)
      ensures trace[|old(trace)|] == Started("delete")
      ensures Callbacks(trace[|old(trace)|..]) == 1
      ensures trace[|trace| - 1] == Called(err, result)
    {
      err, result := Run(TxKind.Delete, items, options);
      CallbackExactlyOnce(hooks, TxKind.Delete, items, options);
      assert trace[|old(trace)|..] == Protocol(hooks, TxKind.Delete, items, options);
    }
  }
}
