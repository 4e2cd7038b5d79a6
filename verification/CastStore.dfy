/** What storage does with sessions: the contract of `Repo` (services/cast/internal/usecase/engine.go:18-26). */
module CastStore {
  import opened CastSession

  type Store = map<string, Session>

  /** What becomes of a stored session when `s` is created: replaced, when it is active on the same speaker. */
  function Superseded(other: Session, s: Session, now: Time): Session {
    if other.sitting.deviceId == s.sitting.deviceId then End(other, Replaced, now) else other
  }

  function Created(store: Store, s: Session, now: Time): Store {
    (map id | id in store :: Superseded(store[id], s, now))[s.sitting.id := s]
  }

  /** A session that has ended in storage is not written over. */
  predicate Writable(store: Store, s: Session) {
    s.sitting.id in store && store[s.sitting.id].state != Ended
  }

  function Saved(store: Store, s: Session): Store {
    if Writable(store, s) then store[s.sitting.id := s] else store
  }
}
