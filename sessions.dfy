/** The in-memory session store: a dictionary from session id to the pending payment
    collection, written once by `/start` and only read by the verification callbacks. */
module Sessions {
  import opened Results
  import opened Js

  /** A pending collection: the payer's two email addresses, the amount and the
      currency. */
  datatype Session = Session(emailVerification: string, emailPayment: string, amount: Number, currency: string)

  /** The dictionary key a `session` query parameter selects: JavaScript turns a missing
      parameter into the key `"undefined"`. */
  function SessionKey(param: Option<string>): string {
    if param.Some? then param.value else "undefined"
  }

  function Lookup(sessions: map<string, Session>, id: string): Option<Session> {
    if id in sessions then Some(sessions[id]) else None
  }

  class SessionStore {
    var sessions: map<string, Session>

    constructor ()
      ensures sessions == map[]
    {
      sessions := map[];
    }

    /** `userSessions[id]` */
    function Get(id: string): Option<Session>
      reads this
    {
      Lookup(sessions, id)
    }

    /** `userSessions[id] = s`: the new entry replaces any entry under the same id, and
        every other entry stays as it was. */
    method Create(id: string, s: Session)
      modifies this
      ensures sessions == old(sessions)[id := s]
      ensures Get(id) == Some(s)
      ensures forall k :: k != id ==> Get(k) == old(Get(k))
      ensures old(sessions).Keys <= sessions.Keys
    {
      sessions := sessions[id := s];
    }
  }
}
