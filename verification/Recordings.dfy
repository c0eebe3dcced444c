/** When two connections of a room record under the same name (gst/pipeline.go, sfu/peer_server.go). */
module Recordings {
  import opened Common
  import opened Rooms
  import opened RoomRuns
  import opened RoomGuarantees
  import opened Connections
  import Identity

  /** The recording names of one connection: the room's random id and names, its user and its connection number. */
  function RecordingOf(p: RoomRun, c: ConnId, room: Identity.Recording, time: string): Identity.Recording
    requires c in p.conns && p.conns[c].number.Read?
  {
    room.(time := time, user := p.conns[c].user, number := p.conns[c].number.value)
  }

  /** As long as no join was early, two connections of a room never record under one name, even at the same moment. */
  lemma RecordingsNeverCollide(p: RoomRun, jp: JoinPayload, c0: ConnId, steps: seq<Step>, c: ConnId, d: ConnId,
                               room: Identity.Recording, timeC: string, timeD: string)
    requires Reachable(p, jp, c0, steps) && NoEarlyJoin(Initial(jp, c0), steps)
    requires c in p.conns && d in p.conns && c != d && p.conns[c].number.Read? && p.conns[d].number.Read?
    requires |timeC| == |timeD|
    ensures Identity.FilePrefix(RecordingOf(p, c, room, timeC)) != Identity.FilePrefix(RecordingOf(p, d, room, timeD))
  {
    NumbersAreDistinct(p, jp, c0, steps, c, d);
    Identity.FilePrefixIsInjective(RecordingOf(p, c, room, timeC), RecordingOf(p, d, room, timeD));
  }

  /** And an early join can make two of them record under the same name, if they do so at the same moment. */
  lemma EarlyJoinRecordsTwice(p: RoomRun, jp: JoinPayload, c0: ConnId, steps: seq<Step>, u: UserId, c: ConnId,
                              d: ConnId, room: Identity.Recording, time: string)
    requires Reachable(p, jp, c0, steps) && Enabled(p, JoinUser(u, c)) && !AfterJoin(p.room, u).1.Refused()
    requires d in p.conns && p.conns[d].user == u && p.conns[d].number == Pending
    ensures var more := [JoinUser(u, c), OnConn(d, ReadNumber), OnConn(c, ReadNumber)];
            && Legal(p, more) && Repeated(Run(p, more), c, d)
            && Identity.FilePrefix(RecordingOf(Run(p, more), c, room, time))
            == Identity.FilePrefix(RecordingOf(Run(p, more), d, room, time))
  {
    EarlyJoinRepeats(p, jp, c0, steps, u, c, d);
  }
}
