/** internal/errors/reload.go: the outcomes of one reload. */
module ReloadErrors {
  import opened Wrappers
  import opened Lifecycle

  class ReloadError {
    var addErrors: map<string, OpError>
    var removeErrors: map<string, OpError>
    var updateErrors: map<string, OpError>
    var successful: nat
    var failed: nat

    function View(): Ledger
      reads this
    {
      Ledger(addErrors, removeErrors, updateErrors, successful, failed)
    }

    constructor ()
      ensures View() == EMPTY_LEDGER
    {
      addErrors, removeErrors, updateErrors := map[], map[], map[];
      successful, failed := 0, 0;
    }

    predicate HasErrors()
      reads this
    {
      failed > 0
    }

    method RecordAddError(op: Op, err: OpError)
      requires op.Add?
      modifies this
      ensures View() == Record(old(View()), op, Some(err))
    {
      addErrors := addErrors[op.svc.name := err];
      failed := failed + 1;
    }

    method RecordRemoveError(op: Op, err: OpError)
      requires op.Remove?
      modifies this
      ensures View() == Record(old(View()), op, Some(err))
    {
      removeErrors := removeErrors[op.target := err];
      failed := failed + 1;
    }

    method RecordUpdateError(op: Op, err: OpError)
      requires op.Update?
      modifies this
      ensures View() == Record(old(View()), op, Some(err))
    {
      updateErrors := updateErrors[op.svc.name := err];
      failed := failed + 1;
    }

    method RecordSuccess()
      modifies this
      ensures View() == old(View()).(successful := old(View()).successful + 1)
    {
      successful := successful + 1;
    }

    method ToError() returns (err: ReloadError?)
      ensures err == if failed == 0 then null else this
    {
      if !HasErrors() {
        return null;
      }
      return this;
    }
  }
}
