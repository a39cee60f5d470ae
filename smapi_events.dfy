/**
  The part of SMAPI's event API that a script subscribes to: the 42 events
  (channels) exposed under `helper.Events`, and, for each of them, the list
  of handlers currently attached with `+=`.
*/
module SmapiEvents {

  import Multicast

  /** The number of events a script subscribes to. */
  const ChannelCount := 42

  /**
    A channel is named by its position in the order in which a script
    attaches its handlers; the named constants below give each position
    its SMAPI event.
  */
  newtype Channel = i: int | 0 <= i < ChannelCount

  // helper.Events.Display
  const MenuChanged: Channel := 0
  const Rendering: Channel := 1
  const Rendered: Channel := 2
  const RenderingWorld: Channel := 3
  const RenderedWorld: Channel := 4
  const RenderingActiveMenu: Channel := 5
  const RenderedActiveMenu: Channel := 6
  const RenderingHud: Channel := 7
  const RenderedHud: Channel := 8
  const WindowResized: Channel := 9
  // helper.Events.GameLoop
  const GameLaunched: Channel := 10
  const UpdateTicking: Channel := 11
  const UpdateTicked: Channel := 12
  const OneSecondUpdateTicking: Channel := 13
  const OneSecondUpdateTicked: Channel := 14
  const SaveCreating: Channel := 15
  const SaveCreated: Channel := 16
  const Saving: Channel := 17
  const Saved: Channel := 18
  const SaveLoaded: Channel := 19
  const DayStarted: Channel := 20
  const DayEnding: Channel := 21
  const TimeChanged: Channel := 22
  const ReturnedToTitle: Channel := 23
  // helper.Events.Input
  const ButtonPressed: Channel := 24
  const ButtonReleased: Channel := 25
  const CursorMoved: Channel := 26
  const MouseWheelScrolled: Channel := 27
  // helper.Events.Multiplayer
  const PeerContextReceived: Channel := 28
  const ModMessageReceived: Channel := 29
  const PeerDisconnected: Channel := 30
  // helper.Events.Player
  const InventoryChanged: Channel := 31
  const LevelChanged: Channel := 32
  const Warped: Channel := 33
  // helper.Events.World
  const LocationListChanged: Channel := 34
  const BuildingListChanged: Channel := 35
  const ChestInventoryChanged: Channel := 36
  const LargeTerrainFeatureListChanged: Channel := 37
  const DebrisListChanged: Channel := 38
  const NpcListChanged: Channel := 39
  const ObjectListChanged: Channel := 40
  const TerrainFeatureListChanged: Channel := 41

  /** Every channel, in attach order. */
  function AllChannels(): (cs: seq<Channel>)
    ensures |cs| == ChannelCount
    ensures forall i :: 0 <= i < ChannelCount ==> cs[i] == i as Channel
    ensures forall c: Channel :: c in cs
  {
    var cs := seq(ChannelCount, i requires 0 <= i < ChannelCount => i as Channel);
    assert forall c: Channel :: c in cs by {
      forall c: Channel ensures c in cs { assert cs[c as int] == c; }
    }
    cs
  }

  /** The channels in attach order are the named events above, each in its place. */
  lemma AttachOrder()
    ensures AllChannels() == [
      MenuChanged, Rendering, Rendered, RenderingWorld, RenderedWorld, RenderingActiveMenu,
      RenderedActiveMenu, RenderingHud, RenderedHud, WindowResized, GameLaunched, UpdateTicking,
      UpdateTicked, OneSecondUpdateTicking, OneSecondUpdateTicked, SaveCreating, SaveCreated,
      Saving, Saved, SaveLoaded, DayStarted, DayEnding, TimeChanged, ReturnedToTitle,
      ButtonPressed, ButtonReleased, CursorMoved, MouseWheelScrolled, PeerContextReceived,
      ModMessageReceived, PeerDisconnected, InventoryChanged, LevelChanged, Warped,
      LocationListChanged, BuildingListChanged, ChestInventoryChanged,
      LargeTerrainFeatureListChanged, DebrisListChanged, NpcListChanged, ObjectListChanged,
      TerrainFeatureListChanged
    ]
  {
  }

  /**
    The host's event source, reduced to one handler list per channel. `H` is
    the type of the handlers; a handler's identity is reference identity.
  */
  class EventTable<H(==)> {
    var table: map<Channel, seq<H>>

    /** Every channel has a (possibly empty) handler list. */
    ghost predicate Valid()
      reads this
    {
      forall c: Channel :: c in table
    }

    /** No handler is attached to any channel. */
    constructor ()
      ensures Valid()
      ensures forall c: Channel :: table[c] == []
    {
      table := map c | c in AllChannels() :: [];
    }

    /** `helper.Events.<Group>.<c> += h` */
    method Add(c: Channel, h: H)
      requires Valid()
      modifies this
      ensures Valid()
      ensures table == old(table)[c := Multicast.Combine(old(table)[c], h)]
    {
      table := table[c := Multicast.Combine(table[c], h)];
    }

    /** `helper.Events.<Group>.<c> -= h` */
    method Remove(c: Channel, h: H)
      requires Valid()
      modifies this
      ensures Valid()
      ensures table == old(table)[c := Multicast.Remove(old(table)[c], h)]
    {
      table := table[c := Multicast.Remove(table[c], h)];
    }
  }
}
