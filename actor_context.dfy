/** The actor context: `CurrentUserMiddleware` binds `request.user` to the
    running thread around each request, and `get_current_user` reads it back
    for the audit receivers. One sequential thread slot is modelled. */
module ActorContext {
  import opened Wrappers

  /** What `request.user` can be: a stored account, whose `get_full_name()` is
      `fullName` (empty when the account has no first or last name), or
      Django's `AnonymousUser`, which has a `username` of `""` and no
      `get_full_name` method at all. */
  datatype User = Registered(username: string, fullName: string) | Anonymous

  /** The `user` attribute of the thread object: absent, or present with a
      value that may itself be `None`. */
  datatype Slot = Unbound | Bound(user: Option<User>)

  /** `get_current_user` on a slot: the bound value, `None` when unbound. */
  function CurrentUser(slot: Slot): Option<User> {
    match slot
    case Bound(user) => user
    case Unbound => None
  }

  /** The guarded `delattr`: remove the attribute only when it is there. */
  function Cleared(slot: Slot): (r: Slot)
    ensures r == Unbound
  {
    if slot.Bound? then Unbound else slot
  }

  /** Clearing twice is clearing once, and after clearing nobody is the actor. */
  lemma ClearIsIdempotent(slot: Slot)
    ensures Cleared(Cleared(slot)) == Cleared(slot)
    ensures CurrentUser(Cleared(slot)) == None
  {
  }

  /** The thread object that carries the `user` attribute. */
  class Thread {
    var slot: Slot

    constructor ()
      ensures slot == Unbound
    {
      slot := Unbound;
    }

    /** `get_current_user()`. */
    function GetCurrentUser(): Option<User>
      reads this
    {
      CurrentUser(slot)
    }

    /** `thread.user = value`. */
    method Bind(value: Option<User>)
      modifies this
      ensures slot == Bound(value)
    {
      slot := Bound(value);
    }

    /** `if hasattr(thread, 'user'): delattr(thread, 'user')`. */
    method Clear()
      modifies this
      ensures slot == Cleared(old(slot))
      ensures old(slot) == Unbound ==> slot == old(slot)
    {
      if slot.Bound? {
        slot := Unbound;
      }
    }
  }

  /** The part of a request the middleware looks at: `getattr(request, 'user',
      None)`, so `None` when no authentication middleware ran before it. */
  datatype Request = Request(user: Option<User>, path: string)

  datatype Response = Response(status: nat, body: string)

  /** What the wrapped `get_response(request)` does: return a response or
      let an exception escape. */
  datatype Outcome = Returned(response: Response) | Raised(error: string)

  /** `CurrentUserMiddleware`. The view chain it wraps is code outside this
      model; it is given as a function of the request and of the actor that
      `get_current_user()` reports while the chain runs. */
  class CurrentUserMiddleware {
    const getResponse: (Request, Option<User>) -> Outcome

    constructor (getResponse: (Request, Option<User>) -> Outcome)
      ensures this.getResponse == getResponse
    {
      this.getResponse := getResponse;
    }

    /** `__call__`: bind, run the chain, clear, return the response unchanged.
        There is no `try`/`finally`, so an exception from the chain leaves the
        binding in place. */
    method Call(request: Request, thread: Thread) returns (outcome: Outcome)
      modifies thread
      ensures outcome == getResponse(request, request.user)
      ensures outcome.Returned? ==> thread.slot == Unbound
      ensures outcome.Raised? ==> thread.slot == Bound(request.user)
    {
      thread.Bind(request.user);
      var actor := thread.GetCurrentUser();
      outcome := getResponse(request, actor);
      if outcome.Raised? {
        return;
      }
      thread.Clear();
    }
  }

  /** Two requests in a row on the same thread: the second one's chain sees
      its own user, never the first one's, when the first returned normally. */
  method TwoRequests(m: CurrentUserMiddleware, thread: Thread, first: Request, second: Request)
    returns (o1: Outcome, o2: Outcome)
    modifies thread
    ensures o1 == m.getResponse(first, first.user)
    ensures o2 == m.getResponse(second, second.user)
    ensures o2.Returned? ==> thread.slot == Unbound
  {
    o1 := m.Call(first, thread);
    o2 := m.Call(second, thread);
  }
}
