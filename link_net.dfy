/** Session and registry state of the link server.

    A `LinkServer` keeps a map from device id to the `RobotLink` session that
    currently speaks for that device.  A `RobotLink` reads frames from its
    connection, registers itself when its first frame is a Hello, mirrors the
    status each Update reports, and resends the pending command whenever the
    link reports that it is executing a different one.

    Sockets become a `Connection` object: an incoming byte stream that `Recv`
    consumes and a log of the byte strings passed to `send`.  Threads are not
    modelled: a session's `Run` is one sequential method. */
module LinkNet {
  import opened Common
  import opened Rml

  /** Why a session method raises. */
  datatype Failure =
    | Codec(e: CodecError)   // struct.error, KeyError or ValueError raised by the codec
    | Overflow(n: int)       // OverflowError from int.to_bytes(2, 'big')
    | NoPackage              // TypeError: resending when nothing was ever sent
    | NotAscii(b: Byte)      // UnicodeDecodeError on the Update status character
    | NotHello(t: Byte)      // AssertionError: the first frame is not a Hello

  /** The checksum argument of `send_package`: footer bytes, or an integer. */
  datatype Checksum = FooterBytes(bs: seq<Byte>) | IntChecksum(n: int)

  /** The status mirror of a session; every entry is `None` until the first
      Update arrives. */
  datatype Status = Status(deviceStatus: Option<Byte>,
                           srv0Pos: Option<int>, srv1Pos: Option<int>,
                           srv0Raw: Option<int>, srv1Raw: Option<int>,
                           batStatus: Option<int>,
                           srv0Vel: Option<int>, srv1Vel: Option<int>)

  const NoStatus := Status(None, None, None, None, None, None, None, None)

  /** Added to the raw battery field of an Update, so that 0 means "change
      the battery now". */
  const BatteryOffset: int := -25

  /** The status mirror an Update frame sets: every reported field as it
      arrives, except the battery, which is shifted by `BatteryOffset`. */
  function Mirrored(vals: seq<Value>): Status
    requires Conforms(UpdateLayout, vals)
  {
    assert Fits(UpdateLayout[0], vals[0]);
    Status(Some(vals[0].c), Some(vals[1].n), Some(vals[2].n),
           Some(vals[3].n), Some(vals[4].n), Some(vals[5].n + BatteryOffset),
           Some(vals[6].n), Some(vals[7].n))
  }

  /** A frame read by `receive_package` that is an Update whose status
      character is ASCII, so that it is mirrored. */
  predicate AsciiUpdate(res: Result<(seq<Value>, Byte), CodecError>) {
    && res.Ok? && res.value.1 == UPDATE && Conforms(UpdateLayout, res.value.0)
    && res.value.0[0].Chr? && res.value.0[0].c < 0x80
  }

  /** A frame read by `receive_package` that is a Hello carrying its two
      fields. */
  predicate HelloFrame(res: Result<(seq<Value>, Byte), CodecError>) {
    res.Ok? && res.value.1 == HELLO && Conforms(HelloLayout, res.value.0)
  }

  // ---------------------------------------------------------------------
  // Checksums on the wire

  /** The integer a checksum stands for: a bytes checksum is read big-endian. */
  function ChecksumValue(c: Checksum): int {
    match c
    case FooterBytes(bs) => FromBigEndian(bs)
    case IntChecksum(n) => n
  }

  /** `int(n).to_bytes(2, 'big')`: raises unless `n` fits in 16 bits. */
  function ToBytes2(n: int): (r: Result<seq<Byte>, Failure>)
    ensures r.Ok? <==> 0 <= n < 0x1_0000
    ensures r.Ok? ==> |r.value| == 2 && FromBigEndian(r.value) == n
  {
    if 0 <= n < 0x1_0000 then
      var bs: seq<Byte> := [n / 256, n % 256];
      FromBigEndianPair(bs);
      Ok(bs)
    else Err(Overflow(n))
  }

  /** The checksum bytes `send_package` works with. */
  function ChecksumBytes(c: Checksum): (r: Result<seq<Byte>, Failure>)
    ensures c.FooterBytes? ==> r == Ok(c.bs)
    ensures c.IntChecksum? ==> (r.Ok? <==> 0 <= c.n < 0x1_0000)
  {
    match c
    case FooterBytes(bs) => Ok(bs)
    case IntChecksum(n) => ToBytes2(n)
  }

  /** `checksum[1:2] + checksum[0:1]`: the first two bytes, exchanged. */
  function SwapFirstTwo(bs: seq<Byte>): (r: seq<Byte>)
    ensures |bs| >= 2 ==> r == [bs[1], bs[0]]
    ensures |r| == if |bs| >= 2 then 2 else |bs|
  {
    (if |bs| >= 2 then [bs[1]] else []) + (if |bs| >= 1 then [bs[0]] else [])
  }

  lemma FromBigEndianPair(bs: seq<Byte>)
    requires |bs| == 2
    ensures FromBigEndian(bs) == bs[0] as int * 256 + bs[1]
  {
    assert bs[..1][..0] == [];
    assert FromBigEndian(bs[..1]) == bs[0];
  }

  /** Reading a two-byte footer as a big-endian integer and writing that
      integer back as two big-endian bytes gives the footer again. */
  lemma FooterAsInteger(footer: seq<Byte>)
    requires |footer| == 2
    ensures ToBytes2(FromBigEndian(footer)) == Ok(footer)
  {
    FromBigEndianPair(footer);
    var n := footer[0] as int * 256 + footer[1];
    assert n / 256 == footer[0] && n % 256 == footer[1];
    assert footer == [footer[0], footer[1]];
  }

  // ---------------------------------------------------------------------
  // The connection

  /** `recv(n)`: at most `n` bytes, fewer when the stream has fewer left. */
  function Take(s: seq<Byte>, n: nat): (r: seq<Byte>)
    ensures |r| == if n <= |s| then n else |s|
  {
    if n <= |s| then s[..n] else s
  }

  /** A socket, as far as a session uses it. */
  class Connection {
    var incoming: seq<Byte>
    var sent: seq<seq<Byte>>
    var open: bool

    constructor(incoming: seq<Byte>)
      ensures this.incoming == incoming && sent == [] && open
    {
      this.incoming := incoming;
      sent := [];
      open := true;
    }

    method Recv(n: nat) returns (bs: seq<Byte>)
      modifies this`incoming
      ensures bs == Take(old(incoming), n)
      ensures old(incoming) == bs + incoming
    {
      bs := Take(incoming, n);
      incoming := incoming[|bs|..];
    }

    method Send(bs: seq<Byte>)
      modifies this`sent
      ensures sent == old(sent) + [bs]
    {
      sent := sent + [bs];
    }

    method Close()
      modifies this`open
      ensures !open
    {
      open := false;
    }
  }

  // ---------------------------------------------------------------------
  // Reading frames

  /** What `receive_package` returns when the connection delivers `stream`,
      with what is left of the stream.  Frames whose checksum does not verify
      are skipped. */
  function Receive(stream: seq<Byte>): (r: (Result<(seq<Value>, Byte), CodecError>, seq<Byte>))
    ensures |r.1| <= |stream|
    ensures r.0.Ok? ==> |r.1| < |stream|
    decreases |stream|
  {
    var header := Take(stream, 2);
    var s1 := stream[|header|..];
    match DecodeHeader(header)
    case Err(e) => (Err(e), s1)
    case Ok(decoded) =>
      var body := Take(s1, decoded.0);
      var s2 := s1[|body|..];
      var footer := Take(s2, 2);
      var s3 := s2[|footer|..];
      match VerifyChecksum(header, body, footer)
      case Err(e) => (Err(e), s3)
      case Ok(verified) =>
        if !verified then Receive(s3)
        else match Decode(decoded.1, body)
          case Err(e) => (Err(e), s3)
          case Ok(vals) => (Ok((vals, decoded.1)), s3)
  }

  /** A frame that is read has decoded by its type's layout. */
  lemma {:induction false} ReceivedLayout(stream: seq<Byte>)
    requires Receive(stream).0.Ok?
    ensures var (vals, t) := Receive(stream).0.value;
      StructFormat(t).Some? && Conforms(StructFormat(t).value, vals)
      && (t == UPDATE ==> Conforms(UpdateLayout, vals))
      && (t == HELLO ==> Conforms(HelloLayout, vals))
    decreases |stream|
  {
    var header := Take(stream, 2);
    var s1 := stream[|header|..];
    var decoded := DecodeHeader(header).value;
    var body := Take(s1, decoded.0);
    var s2 := s1[|body|..];
    var footer := Take(s2, 2);
    var s3 := s2[|footer|..];
    if !VerifyChecksum(header, body, footer).value {
      ReceivedLayout(s3);
    }
  }

  /** `sent` is `before` followed by repetitions of the last element of
      `before`. */
  predicate Repeats(sent: seq<seq<Byte>>, before: seq<seq<Byte>>) {
    && |before| > 0 && |sent| >= |before| && sent[..|before|] == before
    && forall i | |before| <= i < |sent| :: sent[i] == before[|before| - 1]
  }

  lemma RepeatsExtend(sent: seq<seq<Byte>>, previous: seq<seq<Byte>>, before: seq<seq<Byte>>)
    requires Repeats(previous, before)
    requires sent == previous || sent == previous + [previous[|previous| - 1]]
    ensures Repeats(sent, before)
  {
    assert previous[|previous| - 1] == before[|before| - 1] by {
      if |previous| == |before| {
        assert previous == previous[..|before|];
      }
    }
    assert sent[..|previous|] == previous;
    assert sent[..|before|] == previous[..|before|];
  }

  /** A frame whose checksum fails is dropped and reading goes on with the
      bytes after it. */
  lemma ReceiveSkipsBadFrame(header: seq<Byte>, body: seq<Byte>, footer: seq<Byte>, rest: seq<Byte>)
    requires |header| == 2 && |body| == header[0] && |footer| == 2
    requires VerifyChecksum(header, body, footer) == Ok(false)
    ensures Receive(header + body + footer + rest) == Receive(rest)
  {
    var stream := header + body + footer + rest;
    assert Take(stream, 2) == header;
    assert stream[2..] == body + footer + rest;
    assert Take(body + footer + rest, |body|) == body;
    assert (body + footer + rest)[|body|..] == footer + rest;
    assert Take(footer + rest, 2) == footer;
    assert (footer + rest)[2..] == rest;
  }

  /** A frame as the server puts it on the wire is read back as the values
      its body decodes to, and the bytes after it are left unread. */
  lemma ReceiveSentFrame(p: Package, rest: seq<Byte>)
    requires FooterMatches(p) && |p.headerAndBody| >= 2
    requires p.headerAndBody[0] == |p.headerAndBody| - 2
    ensures var d := Decode(p.headerAndBody[1], p.headerAndBody[2..]);
      Receive(p.headerAndBody + Swap(p.footer) + rest)
        == (if d.Ok? then Ok((d.value, p.headerAndBody[1])) else Err(d.error), rest)
  {
    var header := p.headerAndBody[..2];
    var body := p.headerAndBody[2..];
    assert p.headerAndBody == header + body;
    assert header[0] == |body|;
    SentFooterVerifies(header, body);
    assert p.footer == MakeCrcFooter(header + body);
    var footer := Swap(p.footer);
    var stream := p.headerAndBody + footer + rest;
    assert stream == header + (body + footer + rest);
    assert Take(stream, 2) == header;
    assert Take(body + footer + rest, |body|) == body;
    assert (body + footer + rest)[|body|..] == footer + rest;
    assert Take(footer + rest, 2) == footer;
    assert (footer + rest)[2..] == rest;
  }

  // ---------------------------------------------------------------------
  // The registry

  class LinkServer {
    const startEpoch: int
    var running: bool
    var listening: bool
    var links: map<int, RobotLink>

    constructor(startEpoch: int)
      ensures this.startEpoch == startEpoch && running && listening && links == map[]
    {
      this.startEpoch := startEpoch;
      running := true;
      listening := true;
      links := map[];
    }

    /** Every registered session belongs to this server and is filed under
        its own device id. */
    predicate Valid()
      reads this`links, links.Values`deviceId
    {
      forall k | k in links :: links[k].server == this && links[k].deviceId == Some(k)
    }

    /** `size`: the number of registered sessions. */
    function Size(): nat
      reads this
    {
      |links|
    }

    /** `close_server`: stops the accept loop, closes the listening socket
        and closes every registered session; the registry ends empty, so a
        second call finds nothing more to do. */
    method CloseServer()
      requires Valid()
      modifies this`running, this`listening, this`links, links.Values`running,
               (set l | l in links.Values :: l.connection)`open
      ensures !running && !listening && links == map[]
      ensures forall k | k in old(links) :: !old(links)[k].running
    {
      running := false;
      listening := false;
      var ids := links.Keys;
      while ids != {}
        invariant Valid() && !running && !listening
        invariant links.Keys <= ids && links.Keys <= old(links.Keys)
        invariant forall k | k in links :: links[k] == old(links)[k]
        invariant forall k | k in old(links) && k !in links :: !old(links)[k].running
        decreases |ids|
      {
        EmptyOrHasElement(ids);
        var id :| id in ids;
        if id in links {
          var link := links[id];
          link.CloseLink();
        }
        ids := ids - {id};
      }
      assert links.Keys == {};
    }
  }

  // ---------------------------------------------------------------------
  // One session

  class RobotLink {
    const server: LinkServer
    const connection: Connection
    var running: bool
    var deviceId: Option<int>
    var maxVel: Option<int>
    var status: Status
    var executingCommandChecksum: int
    var lastSentPackage: Option<seq<Byte>>
    var currentCommandChecksum: int

    constructor(connection: Connection, server: LinkServer)
      ensures this.connection == connection && this.server == server
      ensures running && deviceId.None? && maxVel.None? && status == NoStatus
      ensures executingCommandChecksum == 0 && lastSentPackage.None? && currentCommandChecksum == 0
    {
      this.connection := connection;
      this.server := server;
      running := true;
      deviceId := None;
      maxVel := None;
      status := NoStatus;
      executingCommandChecksum := 0;
      lastSentPackage := None;
      currentCommandChecksum := 0;
    }

    /** The last bytes on the wire are the pending command followed by its
        checksum, byte-swapped, so resending the pending command repeats
        them exactly. */
    predicate Coherent()
      reads this`lastSentPackage, this`currentCommandChecksum, connection`sent
    {
      && lastSentPackage.Some? && 0 <= currentCommandChecksum < 0x1_0000
      && |connection.sent| > 0
      && connection.sent[|connection.sent| - 1]
         == lastSentPackage.value + SwapFirstTwo(ToBytes2(currentCommandChecksum).value)
    }

    /** `send_package`: records the pending command and its checksum, then
        writes header and body followed by the first two checksum bytes
        exchanged.  An integer checksum that does not fit in 16 bits raises
        after the bookkeeping is done.  The result says whether the whole of
        header, body and checksum went out. */
    method SendPackage(headerAndBody: seq<Byte>, checksum: Checksum) returns (r: Result<bool, Failure>)
      modifies this`lastSentPackage, this`currentCommandChecksum, connection`sent
      ensures lastSentPackage == Some(headerAndBody)
      ensures currentCommandChecksum == ChecksumValue(checksum)
      ensures r.Ok? <==> ChecksumBytes(checksum).Ok?
      ensures r.Ok? ==> connection.sent == old(connection.sent)
                          + [headerAndBody + SwapFirstTwo(ChecksumBytes(checksum).value)]
      ensures r.Ok? ==> (r.value <==> |ChecksumBytes(checksum).value| <= 2)
      ensures r.Err? ==> connection.sent == old(connection.sent)
    {
      lastSentPackage := Some(headerAndBody);
      var cs: seq<Byte>;
      match checksum {
        case FooterBytes(bs) =>
          currentCommandChecksum := FromBigEndian(bs);
          cs := bs;
        case IntChecksum(n) =>
          currentCommandChecksum := n;
          var converted := ToBytes2(n);
          if converted.Err? {
            return Err(converted.error);
          }
          cs := converted.value;
      }
      var wire := headerAndBody + SwapFirstTwo(cs);
      connection.Send(wire);
      r := Ok(|wire| == |headerAndBody + cs|);
    }

    /** Sends a package built by one of the `make_*_package` builders; a
        builder that raised sends nothing. */
    method SendMade(made: Result<Package, CodecError>) returns (r: Result<bool, Failure>)
      requires made.Ok? ==> |made.value.footer| == 2
      modifies this`lastSentPackage, this`currentCommandChecksum, connection`sent
      ensures made.Err? ==> r == Err(Codec(made.error))
                            && lastSentPackage == old(lastSentPackage)
                            && currentCommandChecksum == old(currentCommandChecksum)
                            && connection.sent == old(connection.sent)
      ensures made.Ok? ==> r == Ok(true)
                           && lastSentPackage == Some(made.value.headerAndBody)
                           && currentCommandChecksum == FromBigEndian(made.value.footer)
                           && connection.sent == old(connection.sent)
                              + [made.value.headerAndBody + Swap(made.value.footer)]
                           && Coherent()
    {
      match made {
        case Err(e) =>
          r := Err(Codec(e));
        case Ok(p) =>
          r := SendPackage(p.headerAndBody, FooterBytes(p.footer));
          FooterAsInteger(p.footer);
      }
    }

    method SendCalibratePackage() returns (r: Result<bool, Failure>)
      modifies this`lastSentPackage, this`currentCommandChecksum, connection`sent
      ensures r == Ok(true) && lastSentPackage == Some([0, CALIBRATE]) && Coherent()
      ensures connection.sent == old(connection.sent)
                                 + [[0, CALIBRATE] + Swap(MakeCrcFooter([0, CALIBRATE]))]
    {
      var p := MakeCalibratePackage();
      r := SendMade(Ok(p));
    }

    /** `send_position_package`: mirrors the commanded values first, so they
        are recorded even when packing then raises. */
    method SendPositionPackage(srv0Pos: int, srv1Pos: int, srv0Vel: int, srv1Vel: int) returns (r: Result<bool, Failure>)
      modifies this`status, this`lastSentPackage, this`currentCommandChecksum, connection`sent
      ensures status == old(status).(srv0Pos := Some(srv0Pos), srv1Pos := Some(srv1Pos),
                                     srv0Vel := Some(srv0Vel), srv1Vel := Some(srv1Vel))
      ensures r.Ok? <==> 0 <= srv0Pos < 256 && 0 <= srv1Pos < 256 && 0 <= srv0Vel < 256 && 0 <= srv1Vel < 256
      ensures r.Ok? ==> r.value && Coherent()
                        && lastSentPackage == Some([4, POSITION] + [srv0Pos, srv1Pos, srv0Vel, srv1Vel])
                        && |connection.sent| == |old(connection.sent)| + 1
      ensures r.Err? ==> connection.sent == old(connection.sent) && lastSentPackage == old(lastSentPackage)
    {
      status := status.(srv0Pos := Some(srv0Pos), srv1Pos := Some(srv1Pos),
                        srv0Vel := Some(srv0Vel), srv1Vel := Some(srv1Vel));
      r := SendMade(MakePositionPackage(srv0Pos, srv1Pos, srv0Vel, srv1Vel));
    }

    /** `send_position_only`: a position command at velocity 100 for both
        servos. */
    method SendPositionOnly(srv0Pos: int, srv1Pos: int) returns (r: Result<bool, Failure>)
      modifies this`status, this`lastSentPackage, this`currentCommandChecksum, connection`sent
      ensures status == old(status).(srv0Pos := Some(srv0Pos), srv1Pos := Some(srv1Pos),
                                     srv0Vel := Some(100), srv1Vel := Some(100))
      ensures r.Ok? <==> 0 <= srv0Pos < 256 && 0 <= srv1Pos < 256
      ensures r.Ok? ==> lastSentPackage == Some([4, POSITION] + [srv0Pos, srv1Pos, 100, 100])
    {
      r := SendPositionPackage(srv0Pos, srv1Pos, 100, 100);
    }

    method SendSinusoidalPackage(startTime: int, a0: int, x0: int, ps0: int, p0: int,
                                 a1: int, x1: int, ps1: int, p1: int) returns (r: Result<bool, Failure>)
      modifies this`lastSentPackage, this`currentCommandChecksum, connection`sent
      ensures r.Ok? <==> SinusoidalInRange(startTime, a0, x0, ps0, p0, a1, x1, ps1, p1)
      ensures r.Ok? ==> r.value && Coherent() && lastSentPackage.Some?
                        && |lastSentPackage.value| >= 2
                        && Decode(SINUSOIDAL, lastSentPackage.value[2..])
                           == Ok(SinusoidalValues(startTime, a0, x0, ps0, p0, a1, x1, ps1, p1))
      ensures r.Err? ==> connection.sent == old(connection.sent) && lastSentPackage == old(lastSentPackage)
    {
      r := SendMade(MakeSinusoidalPackage(startTime, a0, x0, ps0, p0, a1, x1, ps1, p1));
    }

    method SendWalkPackage(nrSteps: Value) returns (r: Result<bool, Failure>)
      modifies this`lastSentPackage, this`currentCommandChecksum, connection`sent
      ensures r.Ok? <==> nrSteps.Chr?
      ensures r.Ok? ==> Coherent() && lastSentPackage == Some([1, WALK] + [nrSteps.c])
      ensures r.Err? ==> connection.sent == old(connection.sent) && lastSentPackage == old(lastSentPackage)
    {
      r := SendMade(MakeWalkPackage(nrSteps));
    }

    /** `send_epoch_package`: the server's start epoch as a signed 64-bit
        value. */
    method SendEpochPackage() returns (r: Result<bool, Failure>)
      modifies this`lastSentPackage, this`currentCommandChecksum, connection`sent
      ensures r.Ok? <==> Int64(server.startEpoch)
      ensures r.Ok? ==> Coherent()
                        && connection.sent == old(connection.sent) + [EpochWire(server.startEpoch)]
      ensures r.Err? ==> connection.sent == old(connection.sent) && lastSentPackage == old(lastSentPackage)
    {
      if Int64(server.startEpoch) {
        EpochPackageOnWire(server.startEpoch);
      }
      r := SendMade(MakeEpochPackage(server.startEpoch));
    }

    method SendList(body: seq<Byte>) returns (r: Result<bool, Failure>)
      modifies this`lastSentPackage, this`currentCommandChecksum, connection`sent
      ensures r.Ok? <==> |body| <= 255
      ensures r.Ok? ==> Coherent() && lastSentPackage == Some([|body|, LIST] + body)
      ensures r.Err? ==> connection.sent == old(connection.sent) && lastSentPackage == old(lastSentPackage)
    {
      r := SendMade(MakeList(body));
    }

    /** `close_link`: stops the session and removes the registry entry filed
        under this session's device id, whichever session that entry holds. */
    method CloseLink()
      modifies this`running, connection`open, server`links
      ensures !running
      ensures deviceId.Some? ==> server.links == old(server.links) - {deviceId.value}
      ensures deviceId.None? ==> server.links == old(server.links)
      ensures old(server.Valid()) ==> server.Valid()
      ensures connection.open == (old(connection.open)
                                  && !(deviceId.Some? && deviceId.value in old(server.links)))
    {
      running := false;
      if deviceId.Some? && deviceId.value in server.links {
        server.links := server.links - {deviceId.value};
        connection.Close();
      }
    }

    /** `receive_package`: reads header, body and footer until a frame's
        checksum verifies, then decodes that frame's body. */
    method ReceivePackage() returns (r: Result<(seq<Value>, Byte), CodecError>)
      modifies connection`incoming
      ensures (r, connection.incoming) == Receive(old(connection.incoming))
    {
      while true
        invariant Receive(connection.incoming) == Receive(old(connection.incoming))
        decreases |connection.incoming|
      {
        ghost var before := connection.incoming;
        var header := connection.Recv(2);
        var decoded := DecodeHeader(header);
        if decoded.Err? {
          return Err(decoded.error);
        }
        var body := connection.Recv(decoded.value.0);
        var footer := connection.Recv(2);
        var verified := VerifyChecksum(header, body, footer);
        assert before[|header|..][|body|..][|footer|..] == connection.incoming;
        if verified.Err? {
          return Err(verified.error);
        }
        if verified.value {
          var vals := Decode(decoded.value.1, body);
          if vals.Err? {
            return Err(vals.error);
          }
          return Ok((vals.value, decoded.value.1));
        }
      }
    }

    /** The Update branch of `run`: mirrors the reported status (the battery
        shifted by -25) and the executing checksum, then resends the pending
        command when the link executes a different one. */
    method HandleUpdate(vals: seq<Value>) returns (r: Result<bool, Failure>)
      requires Conforms(UpdateLayout, vals)
      modifies this`status, this`executingCommandChecksum,
               this`lastSentPackage, this`currentCommandChecksum, connection`sent
      ensures lastSentPackage == old(lastSentPackage)
      ensures currentCommandChecksum == old(currentCommandChecksum)
      ensures vals[0].c >= 0x80 ==>
                r == Err(NotAscii(vals[0].c)) && status == old(status)
                && executingCommandChecksum == old(executingCommandChecksum)
                && connection.sent == old(connection.sent)
      ensures vals[0].c < 0x80 ==>
                status == Mirrored(vals) && executingCommandChecksum == vals[8].n
      ensures vals[0].c < 0x80 && vals[8].n == old(currentCommandChecksum) ==>
                r == Ok(false) && connection.sent == old(connection.sent)
      ensures vals[0].c < 0x80 && vals[8].n != old(currentCommandChecksum) && old(Coherent()) ==>
                r == Ok(true)
                && connection.sent == old(connection.sent)
                                      + [old(connection.sent)[|old(connection.sent)| - 1]]
      ensures old(Coherent()) ==> Coherent()
    {
      assert Fits(UpdateLayout[0], vals[0]) && Fits(UpdateLayout[8], vals[8]);
      if vals[0].c >= 0x80 {
        return Err(NotAscii(vals[0].c));
      }
      status := Mirrored(vals);
      executingCommandChecksum := vals[8].n;
      if executingCommandChecksum == currentCommandChecksum {
        return Ok(false);
      }
      if lastSentPackage.None? {
        return Err(NoPackage);
      }
      var resent := SendPackage(lastSentPackage.value, IntChecksum(currentCommandChecksum));
      if resent.Err? {
        return resent;
      }
      r := Ok(true);
    }

    /** One pass of the frame loop of `run`: reads a frame and, when it is
        an Update, handles it; a calibration frame and every other type are
        ignored.  At most one frame goes out, and it repeats the last one. */
    method ServeFrame() returns (cause: Option<Failure>)
      requires Coherent()
      modifies this`status, this`executingCommandChecksum,
               this`lastSentPackage, this`currentCommandChecksum,
               connection`incoming, connection`sent
      ensures Coherent()
      ensures lastSentPackage == old(lastSentPackage)
      ensures currentCommandChecksum == old(currentCommandChecksum)
      ensures connection.sent == old(connection.sent)
              || connection.sent == old(connection.sent) + [old(connection.sent)[|old(connection.sent)| - 1]]
      ensures cause.None? ==> |connection.incoming| < |old(connection.incoming)|
      ensures Receive(old(connection.incoming)).0.Err? ==> cause.Some?
      ensures AsciiUpdate(Receive(old(connection.incoming)).0) ==>
                status == Mirrored(Receive(old(connection.incoming)).0.value.0)
      ensures !AsciiUpdate(Receive(old(connection.incoming)).0) ==> status == old(status)
      ensures (Receive(old(connection.incoming)).0.Ok? && Receive(old(connection.incoming)).0.value.1 == UPDATE
               && !AsciiUpdate(Receive(old(connection.incoming)).0)) ==> cause.Some?
    {
      var p := ReceivePackage();
      if p.Err? {
        return Some(Codec(p.error));
      }
      if p.value.1 == UPDATE {
        ReceivedLayout(old(connection.incoming));
        var u := HandleUpdate(p.value.0);
        if u.Err? {
          return Some(u.error);
        }
      }
      cause := None;
    }

    /** The frame loop of `run` after registration; the first failure ends
        it.  Whatever arrives, the only bytes this loop writes are
        repetitions of the last frame sent before it. */
    method Serve() returns (cause: Option<Failure>)
      requires Coherent()
      modifies this`status, this`executingCommandChecksum,
               this`lastSentPackage, this`currentCommandChecksum,
               connection`incoming, connection`sent
      ensures Coherent()
      ensures lastSentPackage == old(lastSentPackage)
      ensures currentCommandChecksum == old(currentCommandChecksum)
      ensures Repeats(connection.sent, old(connection.sent))
      ensures running ==> cause.Some?
    {
      cause := None;
      while running
        invariant Coherent() && Repeats(connection.sent, old(connection.sent))
        invariant lastSentPackage == old(lastSentPackage)
        invariant currentCommandChecksum == old(currentCommandChecksum)
        decreases |connection.incoming|
      {
        ghost var before := connection.sent;
        cause := ServeFrame();
        RepeatsExtend(connection.sent, before, old(connection.sent));
        if cause.Some? {
          break;
        }
      }
    }

    /** The first frame of `run`: it must be a Hello, which is then
        handled. */
    method Register() returns (cause: Option<Failure>)
      requires deviceId.None? && server.Valid() && this !in server.links.Values
      modifies this`deviceId, this`maxVel, this`lastSentPackage, this`currentCommandChecksum,
               connection`incoming, connection`sent, server`links, server.links.Values`running,
               (set l | l in server.links.Values :: l.connection)`open
      ensures server.Valid()
      ensures deviceId.None? ==> server.links == old(server.links) && cause.Some?
      ensures deviceId.Some? ==> server.links == old(server.links)[deviceId.value := this]
      ensures deviceId.Some? && deviceId.value in old(server.links) ==>
                !old(server.links)[deviceId.value].running
      ensures cause.None? ==> deviceId.Some? && Coherent()
      ensures deviceId.Some? && Int64(server.startEpoch) ==> cause.None?
      ensures !HelloFrame(Receive(old(connection.incoming)).0) ==>
                deviceId.None? && cause.Some? && server.links == old(server.links)
      ensures HelloFrame(Receive(old(connection.incoming)).0) ==>
                var vals := Receive(old(connection.incoming)).0.value.0;
                deviceId == Some(vals[0].n) && maxVel == Some(vals[1].n)
    {
      var first := ReceivePackage();
      if first.Err? {
        return Some(Codec(first.error));
      }
      if first.value.1 != HELLO {
        return Some(NotHello(first.value.1));
      }
      ReceivedLayout(old(connection.incoming));
      var hello := HandleHello(first.value.0);
      cause := if hello.Err? then Some(hello.error) else None;
    }

    /** `run`: the first frame must be a Hello, which registers the session
        under the reported device id (closing the session that held that id
        before) and is answered with the server's epoch; frames are then
        served until a failure, and the session always ends by closing
        itself. */
    method Run() returns (cause: Option<Failure>)
      requires running && deviceId.None? && server.Valid() && this !in server.links.Values
      modifies this`running, this`deviceId, this`maxVel, this`status, this`executingCommandChecksum,
               this`lastSentPackage, this`currentCommandChecksum, connection,
               server`links, server.links.Values`running,
               (set l | l in server.links.Values :: l.connection)`open
      ensures !running && !connection.open && server.Valid()
      ensures deviceId.None? ==> server.links == old(server.links)
      ensures deviceId.Some? ==> server.links == old(server.links) - {deviceId.value}
      ensures deviceId.Some? && deviceId.value in old(server.links) ==>
                !old(server.links)[deviceId.value].running
      ensures !HelloFrame(Receive(old(connection.incoming)).0) ==>
                deviceId.None? && cause.Some? && server.links == old(server.links)
      ensures HelloFrame(Receive(old(connection.incoming)).0) ==>
                var vals := Receive(old(connection.incoming)).0.value.0;
                deviceId == Some(vals[0].n) && maxVel == Some(vals[1].n)
    {
      cause := Register();
      ghost var registered := server.links;
      cause := Conclude(cause);
      assert deviceId.Some? ==> server.links == registered - {deviceId.value};
      if deviceId.Some? {
        RegisterThenRemove(old(server.links), deviceId.value, this);
      }
    }

    /** The rest of `run` once the first frame is handled: frames are served
        when registration succeeded, and the session then closes itself in
        any case.  A failure of the registration is kept as the cause. */
    method Conclude(registration: Option<Failure>) returns (cause: Option<Failure>)
      requires server.Valid() && (registration.None? ==> Coherent())
      modifies this`running, this`status, this`executingCommandChecksum,
               this`lastSentPackage, this`currentCommandChecksum, connection, server`links
      ensures !running && !connection.open && server.Valid()
      ensures deviceId.None? ==> server.links == old(server.links)
      ensures deviceId.Some? ==> server.links == old(server.links) - {deviceId.value}
      ensures registration.Some? ==> cause == registration
    {
      cause := registration;
      if cause.None? {
        cause := Serve();
        if cause.None? {
          connection.Close();
        }
      }
      CloseLink();
      connection.Close();
    }

    /** The Hello branch of `run`: takes the device id and maximum velocity
        from the frame, closes the session already registered under that id,
        registers this session in its place and sends the epoch.  The number
        of sessions grows by one, or stays the same on a takeover. */
    method HandleHello(vals: seq<Value>) returns (r: Result<bool, Failure>)
      requires Conforms(HelloLayout, vals)
      requires server.Valid() && deviceId.None? && this !in server.links.Values
      modifies this`deviceId, this`maxVel, this`lastSentPackage, this`currentCommandChecksum,
               connection`sent, server`links, server.links.Values`running,
               (set l | l in server.links.Values :: l.connection)`open
      ensures deviceId == Some(vals[0].n) && maxVel == Some(vals[1].n)
      ensures server.links == old(server.links)[vals[0].n := this] && server.Valid()
      ensures vals[0].n in old(server.links) ==>
                !old(server.links)[vals[0].n].running && server.Size() == old(server.Size())
      ensures vals[0].n !in old(server.links) ==> server.Size() == old(server.Size()) + 1
      ensures r.Ok? <==> Int64(server.startEpoch)
      ensures r.Ok? ==> Coherent()
                        && connection.sent == old(connection.sent) + [EpochWire(server.startEpoch)]
      ensures r.Err? ==> connection.sent == old(connection.sent)
    {
      assert Fits(HelloLayout[0], vals[0]) && Fits(HelloLayout[1], vals[1]);
      var id := vals[0].n;
      deviceId := Some(id);
      maxVel := Some(vals[1].n);
      Enroll(id);
      r := SendEpochPackage();
    }

    /** Files this session under `id`, closing the session filed there
        before. */
    method Enroll(id: int)
      requires server.Valid() && deviceId == Some(id) && this !in server.links.Values
      modifies server`links, server.links.Values`running, (set l | l in server.links.Values :: l.connection)`open
      ensures server.links == old(server.links)[id := this] && server.Valid()
      ensures id in old(server.links) ==> !old(server.links)[id].running
    {
      if id in server.links {
        var previous := server.links[id];
        previous.CloseLink();
      }
      server.links := server.links[id := this];
    }
  }

  lemma RegisterThenRemove(links: map<int, RobotLink>, id: int, link: RobotLink)
    ensures links[id := link] - {id} == links - {id}
  {
    assert (links[id := link] - {id}).Keys == (links - {id}).Keys;
  }

  /** The range of a signed 64-bit integer, which the epoch is packed as. */
  predicate Int64(n: int) {
    -0x8000_0000_0000_0000 <= n < 0x8000_0000_0000_0000
  }

  /** The bytes `send_epoch_package` writes: the epoch header, the epoch as
      eight little-endian bytes, and the checksum footer byte-swapped. */
  function EpochWire(startEpoch: int): seq<Byte>
    requires Int64(startEpoch)
  {
    var hb := [8, EPOCH] + EncodeField(I64, Num(startEpoch));
    hb + Swap(MakeCrcFooter(hb))
  }

  /** `make_epoch_package` builds exactly the frame `EpochWire` describes. */
  lemma EpochPackageOnWire(startEpoch: int)
    requires Int64(startEpoch)
    ensures MakeEpochPackage(startEpoch).Ok?
    ensures var p := MakeEpochPackage(startEpoch).value;
      |p.footer| == 2 && p.headerAndBody + Swap(p.footer) == EpochWire(startEpoch)
  {
    var vals := [Num(startEpoch)];
    assert Conforms(EpochLayout, vals);
    assert PackFrom(0, EpochLayout, vals) == EncodeField(I64, vals[0]);
  }

  /** A session that reads the epoch frame off the wire gets the start
      epoch back as the one value of an Epoch frame. */
  lemma EpochWireReadsBack(startEpoch: int, rest: seq<Byte>)
    requires Int64(startEpoch)
    ensures Receive(EpochWire(startEpoch) + rest) == (Ok(([Num(startEpoch)], EPOCH)), rest)
  {
    EpochPackageOnWire(startEpoch);
    var p := MakeEpochPackage(startEpoch).value;
    assert |p.headerAndBody| == 10;
    ReceiveSentFrame(p, rest);
  }

  // ---------------------------------------------------------------------
  // ListMaker

  /** `ListMaker.HEAD`. */
  function ListHead(nrRepeat: int, listStartTime: int): (r: Result<seq<Byte>, CodecError>)
    ensures r.Ok? <==> -0x8000 <= nrRepeat < 0x8000 && 0 <= listStartTime < 0x1_0000
    ensures r.Ok? ==> |r.value| == 4
  {
    MakeListHeader(nrRepeat, listStartTime)
  }

  /** `ListMaker.POSVEL`. */
  function ListPosVel(srv0Pos: int, srv1Pos: int, srv0Vel: int, srv1Vel: int, duration: int): (r: Result<seq<Byte>, CodecError>)
    ensures r.Ok? ==> r.value == [duration, POSITION] + [srv0Pos, srv1Pos, srv0Vel, srv1Vel]
    ensures r.Ok? <==> 0 <= duration < 256
                       && 0 <= srv0Pos < 256 && 0 <= srv1Pos < 256 && 0 <= srv0Vel < 256 && 0 <= srv1Vel < 256
  {
    MakeListPosition(srv0Pos, srv1Pos, srv0Vel, srv1Vel, duration)
  }

  /** `ListMaker.SIN` passes three arguments to a ten-argument builder, so
      it always raises. */
  function ListSin(startTime: int, period: int, duration: int): (r: Result<seq<Byte>, CodecError>)
    ensures r == Err(ArgumentCount(10, 3))
  {
    Err(ArgumentCount(10, 3))
  }

  /** `ListMaker.TAIL`: a zero byte and the list-end letter. */
  function ListTail(): (r: seq<Byte>)
    ensures r == [0, LIST_END]
  {
    [0, LIST_END]
  }
}
