/** The kinds of event a monitor logs, and their display names and colours. */
module Monitor {

  const UnknownEvent := "Unkown Event"

  /** For each event, in order: its name, its full description, its short name. */
  const EventToString: seq<seq<string>> := [
    ["Monitor Created Event", "Monitor has been created", "Created"],
    ["Monitor Paused Event", "Monitor has been paused", "Paused"],
    ["Monitor Started Event", "Monitor has been started", "Started"],
    ["Monitor Down Event", "Server is down", "Down"],
    ["Monitor Up Event", "Server is up", "Up"]
  ]

  /** An event, stored as an unsigned 8-bit number. */
  newtype EventType = x: int | 0 <= x < 256
  {
    /** Column `pos` of the event's row, or the unknown-event text for a number
        past the end of the table. */
    function GetSafe(pos: nat): (name: string)
      requires pos < 3
      ensures name == UnknownEvent <==> this > MontiorMax
    {
      if this as int >= |EventToString| then UnknownEvent else EventToString[this][pos]
    }

    /** The event's name, such as "Monitor Created Event". */
    function String(): (s: string)
      ensures this <= MontiorMax ==> s == EventToString[this][0]
      ensures this > MontiorMax ==> s == UnknownEvent
    {
      GetSafe(0)
    }

    /** The event's full description, such as "Monitor has been created". */
    function FullName(): (s: string)
      ensures this <= MontiorMax ==> s == EventToString[this][1]
      ensures this > MontiorMax ==> s == UnknownEvent
    {
      GetSafe(1)
    }

    /** The event's short name, such as "Created". */
    function ShortName(): (s: string)
      ensures this <= MontiorMax ==> s == EventToString[this][2]
      ensures this > MontiorMax ==> s == UnknownEvent
    {
      GetSafe(2)
    }

    /** The colour the dashboard shows the event in. */
    function CSSColor(): (color: string)
      ensures color == "red" <==> this == MonitorDownEvent
      ensures color == "green" <==> this == MonitorUpEvent
      ensures color != "red" && color != "green" ==> color == "#FFC107"
    {
      if this == MonitorDownEvent then "red"
      else if this == MonitorUpEvent then "green"
      else "#FFC107"
    }
  }

  const MonitorCreatedEvent: EventType := 0
  const MonitorPausedEvent: EventType := 1
  const MonitorStartedEvent: EventType := 2
  const MonitorDownEvent: EventType := 3
  const MonitorUpEvent: EventType := 4

  /** The event with the highest number. */
  const MontiorMax: EventType := MonitorUpEvent

  /** Every row has one entry per column, and the table has a row for every
      event up to MontiorMax, so GetSafe never reads outside it. */
  lemma TableShape()
    ensures |EventToString| == MontiorMax as int + 1
    ensures forall i :: 0 <= i < |EventToString| ==> |EventToString[i]| == 3
  {
  }

  /** An event has a known name exactly when it has a row, and then all three
      names are its row's entries. */
  lemma KnownEvent(e: EventType)
    ensures e <= MontiorMax <==> e.String() != UnknownEvent
    ensures e <= MontiorMax <==> e.FullName() != UnknownEvent
    ensures e <= MontiorMax <==> e.ShortName() != UnknownEvent
    ensures e <= MontiorMax ==> [e.String(), e.FullName(), e.ShortName()] == EventToString[e]
  {
  }

  /** The names pinned by the repository's tests. */
  lemma EventNameExamples()
    ensures MonitorPausedEvent.String() == "Monitor Paused Event"
    ensures MonitorDownEvent.FullName() == "Server is down"
    ensures MonitorUpEvent.ShortName() == "Up"
    ensures (5 as EventType).String() == UnknownEvent
  {
  }
}
