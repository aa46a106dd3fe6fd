/**
 * `useContactModal`: whether the contact modal is open, and when it was
 * opened (the start of the time-on-form measurement).
 */
module ModalHook {
  import opened Wrappers

  /** The hook's two state fields as one value. */
  datatype ModalView = ModalView(isModalOpen: bool, formStart: Option<int>)

  /** The state on first render: closed, no start time. */
  function Initial(): (v: ModalView)
    ensures !v.isModalOpen && v.formStart.None?
  {
    ModalView(false, None)
  }

  /** `openModal` at clock reading `now`, from any state. */
  function Open(v: ModalView, now: int): (w: ModalView)
    ensures w.isModalOpen && w.formStart == Some(now)
  {
    v.(isModalOpen := true, formStart := Some(now))
  }

  /** `closeModal`, from any state. */
  function Close(v: ModalView): (w: ModalView)
    ensures !w.isModalOpen && w.formStart.None?
  {
    v.(isModalOpen := false, formStart := None)
  }

  /** A start time is recorded exactly while the modal is open. */
  predicate Consistent(v: ModalView)
  {
    v.isModalOpen <==> v.formStart.Some?
  }

  /** The initial state is consistent and both transitions keep it so. */
  lemma TransitionsKeepConsistent(v: ModalView, now: int)
    ensures Consistent(Initial())
    ensures Consistent(Open(v, now)) && Consistent(Close(v))
  {
  }

  /** Closing twice is closing once. */
  lemma CloseIsIdempotent(v: ModalView)
    ensures Close(Close(v)) == Close(v)
  {
  }

  /** Opening again restarts the clock: only the latest opening time is kept. */
  lemma ReopenRestartsClock(v: ModalView, t0: int, t1: int)
    ensures Open(Open(v, t0), t1) == Open(v, t1)
    ensures Open(Close(v), t1) == Open(v, t1)
  {
  }

  class ModalState {
    var isModalOpen: bool
    var formStart: Option<int>

    function View(): ModalView
      reads this
    {
      ModalView(isModalOpen, formStart)
    }

    constructor ()
      ensures View() == Initial()
    {
      isModalOpen := false;
      formStart := None;
    }

    method OpenModal(now: int)
      modifies this
      ensures View() == Open(old(View()), now)
    {
      isModalOpen := true;
      formStart := Some(now);
    }

    method CloseModal()
      modifies this
      ensures View() == Close(old(View()))
    {
      isModalOpen := false;
      formStart := None;
    }
  }
}
