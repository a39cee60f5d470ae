/**
  StardewScript.Framework.Script: the base class of every user script. It
  wraps each of its 42 event handlers so that an exception is reported to
  the emergency shutdown callback instead of reaching SMAPI, attaches the
  wrappers on Initialize and detaches them on DeInitialize.
*/
module Framework {

  import opened Wrappers
  import opened SmapiEvents
  import Multicast

  /** An exception: a null dereference in the framework, or anything user code throws. */
  datatype Exception = NullReference | Raised(message: string)

  /** What a piece of user code (a compiler run, a hook, a handler) does when it runs. */
  datatype Outcome = Completed | Threw(error: Exception)

  /** One call of the emergency shutdown callback, `callback(scriptFilename, error)`. */
  datatype Report = Report(scriptFilename: string, error: Exception)

  /** SMAPI's events as seen by scripts: handler lists of wrapped handlers. */
  type Events = EventTable<GuardedHandler>

  /**
    The closure `DelegateEvent` returns for one channel of one script. Each
    call of DelegateEvent allocates a new one, so `-=` removes exactly it.
  */
  class GuardedHandler {
    const owner: Script
    const channel: Channel

    constructor (owner: Script, channel: Channel)
      ensures this.owner == owner && this.channel == channel
    {
      this.owner := owner;
      this.channel := channel;
    }

    /**
      One invocation by SMAPI. `userHandler` is what the script's overridden
      On<Event> does. An exception it throws is caught and handed, with the
      script's file name, to the emergency callback (the Report returned);
      nothing escapes to the publisher.
    */
    method Invoke(userHandler: Outcome) returns (callback: Option<Report>)
      requires owner.hasCallback
      ensures userHandler.Completed? ==> callback == None
      ensures userHandler.Threw? ==> callback == Some(Report(owner.scriptFilename, userHandler.error))
    {
      match userHandler
      case Completed =>
        callback := None;
      case Threw(e) =>
        var report := owner.InvokeEmergencyShutdownCallback(e);
        callback := Some(report);
    }
  }

  class Script {
    /** `_emergencyCallback` is set (ModEntry only ever passes its EmergencyShutdown). */
    var hasCallback: bool
    /** `ScriptFilename` */
    var scriptFilename: string
    /** `ModHelper`, whose `Events` the handlers go to; `Monitor` is assigned with it. Null until Initialize gets past its guard. */
    var modHelper: EventTable?<GuardedHandler>
    /** The 42 `_<event>EventHandler` fields; a channel missing from the map is a null field. */
    var handlers: map<Channel, GuardedHandler>

    /** Every handler field holds this script's own wrapper for its channel. */
    ghost predicate Wired()
      reads this
    {
      forall c: Channel :: c in handlers && handlers[c].owner == this && handlers[c].channel == c
    }

    /** Once Initialize has got past its guard, the callback is set and every field is wired. */
    ghost predicate Valid()
      reads this
    {
      modHelper != null ==> hasCallback && Wired()
    }

    /** A script as the compiler creates it: no callback, no helper, null handler fields. */
    constructor ()
      ensures Valid()
      ensures !hasCallback && scriptFilename == "" && modHelper == null && handlers == map[]
    {
      hasCallback := false;
      scriptFilename := "";
      modHelper := null;
      handlers := map[];
    }

    method SetEmergencyShutdownCallback(filename: string)
      requires Valid()
      modifies this
      ensures Valid()
      ensures hasCallback && scriptFilename == filename
      ensures modHelper == old(modHelper) && handlers == old(handlers)
    {
      scriptFilename := filename;
      hasCallback := true;
    }

    /** Wraps the user handler for channel `c` (the closure is a new object). */
    method DelegateEvent(c: Channel) returns (h: GuardedHandler)
      ensures fresh(h) && h.owner == this && h.channel == c
    {
      h := new GuardedHandler(this, c);
    }

    /** `_emergencyCallback.Invoke(ScriptFilename, e)`: reports the file name stored now. */
    method InvokeEmergencyShutdownCallback(e: Exception) returns (report: Report)
      requires hasCallback
      ensures report == Report(scriptFilename, e)
    {
      report := Report(scriptFilename, e);
    }

    /**
      Without a callback Initialize only logs, through the script's own
      Monitor, which is still null on a script that was never initialized,
      so that log call throws. Otherwise it wraps one handler per channel,
      appends each to its channel's list and then runs the user's
      InitializeScript, whose outcome (`setup`) it passes on.
    */
    method Initialize(helper: Events, setup: Outcome) returns (r: Outcome)
      requires Valid() && helper.Valid()
      modifies this, helper
      ensures Valid() && helper.Valid()
      ensures hasCallback == old(hasCallback) && scriptFilename == old(scriptFilename)
      ensures !old(hasCallback) ==> r == (if old(modHelper) == null then Threw(NullReference) else Completed)
      ensures !old(hasCallback) ==> modHelper == old(modHelper) && handlers == old(handlers) && helper.table == old(helper.table)
      ensures old(hasCallback) ==> r == setup && modHelper == helper && Wired()
      ensures old(hasCallback) ==> forall c: Channel :: fresh(handlers[c])
      ensures old(hasCallback) ==> forall c: Channel :: helper.table[c] == Multicast.Combine(old(helper.table)[c], handlers[c])
    {
      if !hasCallback {
        r := if modHelper == null then Threw(NullReference) else Completed;
        return;
      }
      modHelper := helper;
      WrapHandlers();
      AttachHandlers();
      r := InitializeScript(setup);
    }

    /** The "EventHandler setup" half of Initialize: a new wrapper in every handler field. */
    method WrapHandlers()
      modifies this
      ensures Wired() && forall c: Channel :: fresh(handlers[c])
      ensures hasCallback == old(hasCallback) && scriptFilename == old(scriptFilename) && modHelper == old(modHelper)
    {
      for i := 0 to ChannelCount
        invariant hasCallback == old(hasCallback) && scriptFilename == old(scriptFilename) && modHelper == old(modHelper)
        invariant forall c: Channel :: (c as int) < i ==> c in handlers && fresh(handlers[c])
        invariant forall c: Channel :: (c as int) < i ==> handlers[c].owner == this && handlers[c].channel == c
      {
        var c := i as Channel;
        var h := DelegateEvent(c);
        handlers := handlers[c := h];
      }
    }

    /** The "Attach event handlers" half of Initialize: `+=` of every field to its channel. */
    method AttachHandlers()
      requires modHelper != null && modHelper.Valid() && Wired()
      modifies modHelper
      ensures modHelper.Valid()
      ensures forall c: Channel :: modHelper.table[c] == Multicast.Combine(old(modHelper.table)[c], handlers[c])
    {
      var events := modHelper;
      for i := 0 to ChannelCount
        invariant events.Valid()
        invariant forall c: Channel :: (c as int) < i ==> events.table[c] == Multicast.Combine(old(events.table)[c], handlers[c])
        invariant forall c: Channel :: (c as int) >= i ==> events.table[c] == old(events.table)[c]
      {
        var c := i as Channel;
        ghost var before := events.table;
        events.Add(c, handlers[c]);
        assert forall c': Channel :: c' != c ==> events.table[c'] == before[c'];
      }
    }

    /**
      The user's InitializeScript hook; `setup` is what it does. Its
      precondition is where the order is checked: it is only reached once
      every channel's list holds this script's handler.
    */
    method InitializeScript(setup: Outcome) returns (r: Outcome)
      requires modHelper != null && modHelper.Valid() && Wired()
      requires forall c: Channel :: handlers[c] in modHelper.table[c]
      ensures r == setup
    {
      r := setup;
    }

    /**
      Detaches the handler held in each field from its channel with `-=`.
      On a script that was never initialized ModHelper is null and the first
      `-=` throws.
    */
    method DeInitialize() returns (r: Outcome)
      requires Valid() && (modHelper != null ==> modHelper.Valid())
      modifies modHelper
      ensures old(modHelper) == null ==> r == Threw(NullReference)
      ensures modHelper != null ==> r == Completed && modHelper.Valid()
      ensures modHelper != null ==> forall c: Channel :: modHelper.table[c] == Multicast.Remove(old(modHelper.table)[c], handlers[c])
    {
      if modHelper == null {
        r := Threw(NullReference);
        return;
      }
      var events := modHelper;
      for i := 0 to ChannelCount
        invariant events.Valid()
        invariant forall c: Channel :: (c as int) < i ==> events.table[c] == Multicast.Remove(old(events.table)[c], handlers[c])
        invariant forall c: Channel :: (c as int) >= i ==> events.table[c] == old(events.table)[c]
      {
        var c := i as Channel;
        ghost var before := events.table;
        events.Remove(c, handlers[c]);
        assert forall c': Channel :: c' != c ==> events.table[c'] == before[c'];
      }
      r := Completed;
    }

    /** IDisposable.Dispose: releases nothing, changes nothing. */
    method Dispose()
    {
    }
  }

  /** Initialize followed by DeInitialize leaves every channel's handler list as it was. */
  method InitializeThenDeInitialize(s: Script, helper: Events, setup: Outcome)
    requires s.Valid() && helper.Valid() && s.hasCallback
    modifies s, helper
    ensures helper.table == old(helper.table)
  {
    var _ := s.Initialize(helper, setup);
    var _ := s.DeInitialize();
    forall c: Channel ensures helper.table[c] == old(helper.table)[c] {
      Multicast.CombineThenRemove(old(helper.table)[c], s.handlers[c]);
    }
  }

  /**
    The callback reports the file name SetEmergencyShutdownCallback bound,
    whatever Initialize and DeInitialize did in between: neither touches it.
  */
  method ReportsBoundFilename(s: Script, filename: string, helper: Events, setup: Outcome, e: Exception)
    returns (report: Report)
    requires s.Valid() && helper.Valid()
    modifies s, helper
    ensures report == Report(filename, e)
  {
    s.SetEmergencyShutdownCallback(filename);
    var _ := s.Initialize(helper, setup);
    var _ := s.DeInitialize();
    report := s.InvokeEmergencyShutdownCallback(e);
  }
}
