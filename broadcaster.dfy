/**
 * The Broadcaster of pkg/broadcaster/broadcaster.go: the three watch callbacks wrap the object
 * in a message, resolve it to an event through the registry and publish it through the one
 * broker; the builder methods keep the first construction error and the watch controllers.
 */
module Broadcast {
  import opened Wrappers
  import opened Errors
  import opened Events
  import opened Envelopes
  import opened Registry
  import opened Brokers

  /** The controller-runtime manager; only whether there is one matters here. */
  datatype Manager = Manager

  /** A watch controller, named by the kind it watches. */
  datatype Controller = Controller(For: string)

  const ManagerCreationFailed: string := "error creating manager"
  const ManagerRequired: string := "broadcaster requires a manager to operate"
  const ControllersRequired: string :=
    "can't build a broadcaster without controllers, use WithController method to add a controller"

  /**
   * The stored error after Build's two checks as written: each check wraps the stored error,
   * and wrapping nil gives nil, so the checks keep an earlier error and never create one.
   */
  function AfterChecks(stored: Option<Error>, hasManager: bool, controllerCount: nat): (r: Option<Error>)
    ensures r.None? <==> stored.None?
    ensures stored.Some? && hasManager && controllerCount > 0 ==> r == stored
  {
    var afterManager := if !hasManager then Wrap(stored, ManagerRequired) else stored;
    if controllerCount == 0 then Wrap(afterManager, ControllersRequired) else afterManager
  }

  /**
   * A broadcaster with a manager, no stored error and no controllers passes Build's checks as
   * written. That state is reachable: `New` succeeded and the only WithWatcherFor call failed to
   * create its controller, which returns nil without storing the error.
   */
  lemma AfterChecksAcceptsMissingRequirements()
    ensures AfterChecks(None, true, 0) == None
    ensures AfterChecks(None, false, 0) == None
  {
  }

  /** `errors.Wrap` where there is an error to wrap, `errors.New` where there is none. */
  function WrapOrNew(err: Option<Error>, message: string): (r: Option<Error>)
    ensures r.Some?
    ensures err.None? ==> r == Some(Error(message))
    ensures err.Some? ==> r == Wrap(err, message)
  {
    if err.None? then Some(Error(message)) else Wrap(err, message)
  }

  /**
   * Build's checks as its documentation promises them: an error exactly when a requirement is
   * missing or an error was stored earlier.
   */
  function AfterChecksCorrected(stored: Option<Error>, hasManager: bool, controllerCount: nat): (r: Option<Error>)
    ensures r.None? <==> stored.None? && hasManager && controllerCount > 0
  {
    var afterManager := if !hasManager then WrapOrNew(stored, ManagerRequired) else stored;
    if controllerCount == 0 then WrapOrNew(afterManager, ControllersRequired) else afterManager
  }

  class Broadcaster {
    var broker: Option<Broker>
    var error: Option<Error>
    var manager: Option<Manager>
    var controllers: seq<Controller>

    /**
     * The broadcaster `New` returns. `created` is what creating the manager gave: on success the
     * broadcaster holds the manager and no error, on failure no manager and the wrapped error.
     */
    constructor (broker: Option<Broker>, created: Result<Manager, Error>)
      ensures this.broker == broker && controllers == []
      ensures created.Success? ==> manager == Some(created.value) && error.None?
      ensures created.Failure? ==> manager.None? && error == Wrap(Some(created.error), ManagerCreationFailed)
      ensures manager.None? <==> error.Some?
    {
      this.broker := broker;
      controllers := [];
      if created.Failure? {
        manager := None;
        error := Wrap(Some(created.error), ManagerCreationFailed);
      } else {
        manager := Some(created.value);
        error := None;
      }
    }

    /** Append one controller at the end. */
    method AddController(controller: Controller)
      modifies this`controllers
      ensures controllers == old(controllers) + [controller]
    {
      controllers := controllers + [controller];
    }

    /**
     * Add a watch controller for `obj`'s kind. `created` is what creating that controller gave.
     * With an error already stored, nothing happens and the same broadcaster comes back; a failed
     * creation returns nil without storing the error; otherwise the controller is appended.
     */
    method WithWatcherFor(obj: Resources.Resource, created: Result<Controller, Error>) returns (r: Broadcaster?)
      modifies this`controllers
      ensures old(error).Some? ==> r == this && controllers == old(controllers)
      ensures old(error).None? && created.Failure? ==> r == null && controllers == old(controllers)
      ensures old(error).None? && created.Success? ==> r == this && controllers == old(controllers) + [created.value]
    {
      if error.Some? {
        return this;
      }
      if created.Failure? {
        return null;
      }
      AddController(created.value);
      return this;
    }

    /**
     * Run the manager and controller checks, store the outcome and return it: nil exactly when
     * no error was stored and both requirements hold. The checks create the error where the
     * source's wrapping of nil would drop it (see AfterChecks for the behaviour as written).
     */
    method Build() returns (err: Option<Error>)
      modifies this`error
      ensures error == AfterChecksCorrected(old(error), manager.Some?, |controllers|)
      ensures err == error
      ensures err.None? <==> old(error).None? && manager.Some? && |controllers| > 0
    {
      if manager.None? {
        error := WrapOrNew(error, ManagerRequired);
      }
      if |controllers| == 0 {
        error := WrapOrNew(error, ControllersRequired);
      }
      if error.Some? {
        return error;
      }
      return None;
    }

    /**
     * Build the envelope, then send it. A build error is returned as it is and the broker's
     * SendMessage plays no part in the result; otherwise the send's error is returned as it is.
     * Nil exactly when both steps succeed.
     */
    function Publish(event: Event): (err: Option<Error>)
      reads this
      requires broker.Some? && CanPublish(broker.value, event)
      ensures var built := broker.value.BuildEnvelope(event);
              && (built.Failure? ==> err == Some(built.error))
              && (built.Success? ==> err == broker.value.SendMessage(built.value))
              && (err.None? <==> built.Success? && broker.value.SendMessage(built.value).None?)
    {
      var b := broker.value;
      match b.BuildEnvelope(event)
      case Failure(e) => Some(e)
      case Success(envelope) =>
        match b.SendMessage(envelope)
        case Some(e) => Some(e)
        case None => None
    }

    /**
     * With no broker: nil, without resolving anything. Otherwise the object, unchanged, is the
     * message body, the Added resolver's event is published and Publish's result returned. The
     * resolver's result goes to Publish unchecked, so the object's kind must be registered.
     */
    function OnAdd(registry: EventFactoryRegistry, obj: Any): (err: Option<Error>)
      reads this, registry
      requires broker.Some? ==>
                 && IsObject(obj)
                 && registry.ForAdded(EventMessage(obj)).Some?
                 && CanPublish(broker.value, registry.ForAdded(EventMessage(obj)).value)
      ensures broker.None? ==> err.None?
      ensures broker.Some? ==> err == Publish(registry.ForAdded(EventMessage(obj)).value)
    {
      if broker.None? then None
      else
        var message := EventMessage(obj);
        var event := registry.ForAdded(message);
        Publish(event.value)
    }

    /** As OnAdd, with the ordered pair (oldObj, newObj) as body and the Updated resolver. */
    function OnUpdate(registry: EventFactoryRegistry, oldObj: Any, newObj: Any): (err: Option<Error>)
      reads this, registry
      requires broker.Some? ==>
                 && IsUpdatePair(Update(oldObj, newObj))
                 && registry.ForUpdated(EventMessage(Update(oldObj, newObj))).Some?
                 && CanPublish(broker.value, registry.ForUpdated(EventMessage(Update(oldObj, newObj))).value)
      ensures broker.None? ==> err.None?
      ensures broker.Some? ==> err == Publish(registry.ForUpdated(EventMessage(Update(oldObj, newObj))).value)
    {
      if broker.None? then None
      else
        var message := EventMessage(Update(oldObj, newObj));
        var event := registry.ForUpdated(message);
        Publish(event.value)
    }

    /** As OnAdd, with the Deleted resolver. */
    function OnDelete(registry: EventFactoryRegistry, obj: Any): (err: Option<Error>)
      reads this, registry
      requires broker.Some? ==>
                 && IsObject(obj)
                 && registry.ForDeleted(EventMessage(obj)).Some?
                 && CanPublish(broker.value, registry.ForDeleted(EventMessage(obj)).value)
      ensures broker.None? ==> err.None?
      ensures broker.Some? ==> err == Publish(registry.ForDeleted(EventMessage(obj)).value)
    {
      if broker.None? then None
      else
        var message := EventMessage(obj);
        var event := registry.ForDeleted(message);
        Publish(event.value)
    }
  }

  /** An unregistered kind gives no event: with a broker set, the callbacks cannot be called for it. */
  lemma UnregisteredKindHasNoEvent(registry: EventFactoryRegistry, obj: Resources.Resource, oldObj: Any)
    requires obj.Kind !in registry.factories
    ensures registry.ForAdded(EventMessage(Obj(obj))).None?
    ensures registry.ForUpdated(EventMessage(Update(oldObj, Obj(obj)))).None?
    ensures registry.ForDeleted(EventMessage(Obj(obj))).None?
  {
  }
}
