/** The unit of work: a session opened on entry, handed to the repositories,
    rolled back and closed on exit, with commit/rollback/close forwarded to
    the session and skipped while there is none. */
module UnitOfWork {
  import opened Results
  import opened Exceptions
  import opened Store

  /** The unit of work with its session starting out empty, so that commit,
      rollback and close before entry are the no-ops the code intends. */
  class BaseUnitOfWork {
    var session: Session?
    /** The session the repositories were last initialised with. */
    var repositoriesSession: Session?

    constructor ()
      ensures session == null && repositoriesSession == null
    {
      session := null;
      repositoriesSession := null;
    }

    /** `__aenter__`: a new session from the factory, passed on to the
        repositories; returns the unit of work itself. */
    method Enter() returns (self: BaseUnitOfWork)
      modifies this
      ensures self == this
      ensures session != null && fresh(session) && session.calls == []
      ensures repositoriesSession == session
    {
      session := new Session();
      repositoriesSession := session;
      self := this;
    }

    /** `commit`: one `Commit` on the session, or nothing without one. */
    method Commit()
      modifies session
      ensures old(session) == null ==> unchanged(this)
      ensures session != null ==> session.calls == old(session.calls) + [SessionCall.Commit]
    {
      if session != null {
        session.Record(SessionCall.Commit);
      }
    }

    /** `rollback`: one `Rollback` on the session, or nothing without one. */
    method Rollback()
      modifies session
      ensures old(session) == null ==> unchanged(this)
      ensures session != null ==> session.calls == old(session.calls) + [SessionCall.Rollback]
    {
      if session != null {
        session.Record(SessionCall.Rollback);
      }
    }

    /** `close`: one `Close` on the session, or nothing without one. */
    method Close()
      modifies session
      ensures old(session) == null ==> unchanged(this)
      ensures session != null ==> session.calls == old(session.calls) + [SessionCall.Close]
    {
      if session != null {
        session.Record(SessionCall.Close);
      }
    }

    /** `__aexit__`: rollback then close, whether or not the block raised;
        the result never suppresses the exception. */
    method Exit(raised: Option<Exception>) returns (suppress: bool)
      modifies session
      ensures !suppress
      ensures session != null ==>
        session.calls == old(session.calls) + [SessionCall.Rollback, SessionCall.Close]
      ensures session == null ==> unchanged(this)
    {
      Rollback();
      Close();
      suppress := false;
    }
  }

  /** A full `async with` block: the session sees the block's own calls and then
      exactly a rollback and a close, so nothing is kept without a commit inside. */
  method WithBlock(body: seq<SessionCall>, raised: Option<Exception>) returns (calls: seq<SessionCall>)
    ensures calls == body + [SessionCall.Rollback, SessionCall.Close]
    ensures calls[|calls| - 2..] == [SessionCall.Rollback, SessionCall.Close]
  {
    var uow := new BaseUnitOfWork();
    var self := uow.Enter();
    var s := uow.session;
    var i := 0;
    while i < |body|
      invariant 0 <= i <= |body|
      invariant uow.session == s && s.calls == body[..i]
    {
      s.Record(body[i]);
      i := i + 1;
    }
    assert body[..|body|] == body;
    var suppress := uow.Exit(raised);
    calls := s.calls;
  }

  /** The `session` attribute as the code leaves it: declared on the class
      but assigned only on entry. */
  datatype SessionSlot = Unset | Bound(s: Session)

  /** The unit of work as written: reading `session` before entry raises
      AttributeError rather than finding a falsy value. */
  class UnitOfWorkAsWritten {
    var slot: SessionSlot

    constructor ()
      ensures slot == Unset
    {
      slot := Unset;
    }

    method Enter() returns (self: UnitOfWorkAsWritten)
      modifies this
      ensures self == this && slot.Bound? && fresh(slot.s) && slot.s.calls == []
    {
      var s := new Session();
      slot := Bound(s);
      self := this;
    }

    /** `commit` as written: without entry the attribute lookup raises. */
    method Commit() returns (r: Outcome<(), Exception>)
      modifies if slot.Bound? then {slot.s} else {}
      ensures slot == old(slot)
      ensures slot.Unset? ==> r == Raised(AttributeError)
      ensures slot.Bound? ==> r == Returned(()) && slot.s.calls == old(slot.s.calls) + [SessionCall.Commit]
    {
      if slot.Unset? {
        return Raised(AttributeError);
      }
      slot.s.Record(SessionCall.Commit);
      r := Returned(());
    }
  }

  /** The discrepancy: committing a unit of work that was never entered raises. */
  method CommitWithoutEnterAsWritten() returns (r: Outcome<(), Exception>)
    ensures r == Raised(AttributeError)
  {
    var uow := new UnitOfWorkAsWritten();
    r := uow.Commit();
  }

  /** The intended behaviour: committing, rolling back and closing a unit of
      work that was never entered returns normally and records nothing. */
  method CommitWithoutEnter() returns (entered: bool)
    ensures !entered
  {
    var uow := new BaseUnitOfWork();
    uow.Commit();
    uow.Rollback();
    uow.Close();
    entered := uow.session != null;
  }
}
