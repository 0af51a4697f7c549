/** The presence of one connection: however its registration and its disconnection interleave, it is given back exactly once. */
module Release {

  import opened Common

  /** A registration is under way, or has ended with a generation or without one. */
  datatype Registration = Registering | Registered(number: Option<nat>)

  /** `asked` counts the disconnections seen, of which there is at most one; `unregistered` are the calls to unregister. */
  datatype State = State(registration: Registration, asked: bool, awaiting: bool, released: bool, unregistered: seq<nat>)

  const Fresh := State(Registering, false, false, false, [])

  datatype Event = Settle(number: Option<nat>) | Disconnect | Proceed

  predicate Enabled(s: State, e: Event) {
    match e
    case Settle(_) => s.registration.Registering?
    case Disconnect => !s.asked
    case Proceed => s.awaiting && s.registration.Registered?
  }

  function Step(s: State, e: Event): State
    requires Enabled(s, e)
  {
    match e
    case Settle(number) => s.(registration := Registered(number))
    case Disconnect => s.(asked := true, awaiting := true)
    case Proceed =>
      var number := s.registration.number;
      var t := s.(awaiting := false);
      if number.None? || s.released then t else t.(released := true, unregistered := s.unregistered + [number.value])
  }

  predicate CanRun(events: seq<Event>)
    decreases |events|, 0
  {
    events == [] || (CanRun(events[..|events| - 1]) && Enabled(Run(events[..|events| - 1]), events[|events| - 1]))
  }

  function Run(events: seq<Event>): State
    requires CanRun(events)
    decreases |events|, 1
  {
    if events == [] then Fresh else Step(Run(events[..|events| - 1]), events[|events| - 1])
  }

  /** In every run the generation of the registration is given back at most once, and exactly once when nothing is left to do. */
  lemma {:induction false} ReleasedOnce(events: seq<Event>)
    requires CanRun(events)
    ensures var s := Run(events);
            && |s.unregistered| <= 1
            && (s.unregistered != [] ==> s.asked && s.registration == Registered(Some(s.unregistered[0])))
            && (s.awaiting ==> s.asked && s.unregistered == [])
            && (s.released <==> s.unregistered != [])
            && (s.asked && !s.awaiting && s.registration.Registered? && s.registration.number.Some? ==>
                  s.unregistered == [s.registration.number.value])
            && (s.asked && !s.awaiting ==> s.registration.Registered?)
  {
    if events != [] {
      ReleasedOnce(events[..|events| - 1]);
    }
  }

  class ConnectionPresence {
    var registration: Registration
    var releaseRequested: bool
    var presenceReleased: bool
    ghost var awaiting: bool
    ghost var unregistered: seq<nat>

    constructor ()
      ensures Contents() == Fresh
    {
      registration, releaseRequested, presenceReleased, awaiting, unregistered := Registering, false, false, false, [];
    }

    ghost function Contents(): State
      reads this
    {
      State(registration, releaseRequested, awaiting, presenceReleased, unregistered)
    }

    method RegistrationSettled(number: Option<nat>)
      requires Enabled(Contents(), Settle(number))
      modifies this
      ensures Contents() == Step(old(Contents()), Settle(number))
    {
      registration := Registered(number);
    }

    /** The socket disconnects; the release waits for the registration. */
    method RequestRelease()
      requires Enabled(Contents(), Disconnect)
      modifies this
      ensures Contents() == Step(old(Contents()), Disconnect)
    {
      releaseRequested := true;
      awaiting := true;
    }

    /** The registration has settled: what is returned is unregistered now. */
    method ContinueRelease() returns (unregister: Option<nat>)
      requires Enabled(Contents(), Proceed)
      modifies this
      ensures Contents() == Step(old(Contents()), Proceed)
      ensures unregister.Some? ==> unregistered == old(unregistered) + [unregister.value]
      ensures unregister.None? ==> unregistered == old(unregistered)
    {
      awaiting := false;
      if registration.number.None? || presenceReleased { return None; }
      presenceReleased := true;
      unregistered := unregistered + [registration.number.value];
      return registration.number;
    }
  }
}
