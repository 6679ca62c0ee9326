/** The pairing exchange after the TLS handshake: framed messages, the information the two sides exchange, and the
    order in which a key is committed and the device answers. */
module Pairing {
  import opened Wrappers
  import opened Bytes
  import Mdns

  const PEER_SIZE := 8192

  // ---------------------------------------------------------------------------------------------
  // Messages

  /** `send`: version, kind, length and body. */
  function Message(kind: byte, body: seq<byte>): seq<byte>
  {
    [1, kind] + Be32(|body| % 0x1_0000_0000) + body
  }

  /** `receive`: the body of the message of this kind at the head of the stream, and what follows it. */
  function Receive(s: seq<byte>, kind: byte): Option<(seq<byte>, seq<byte>)>
  {
    if |s| < 6 || s[0] != 1 || s[1] != kind then None
    else
      var len := FromBe32(s[2..6]);
      if len == 0 || len > 2 * PEER_SIZE || 6 + len > |s| then None
      else Some((s[6..6 + len], s[6 + len..]))
  }

  /** A message on the wire, octet by octet: its length is big-endian. */
  lemma MessageOnTheWire(kind: byte, body: seq<byte>)
    requires |body| <= 16384
    ensures Message(kind, body) == [1, kind, 0, 0, |body| / 256, |body| % 256] + body
  {
    assert Be32(|body|) == [0, 0, |body| / 256, |body| % 256];
  }

  lemma Be32Back(n: uint32)
    ensures FromBe32(Be32(n)) == n
  {
    Mdns.Be32RoundTrip(n);
  }

  lemma Be32Only(s: seq<byte>)
    requires |s| == 4
    ensures Be32(FromBe32(s)) == s
  {
    var a: int, b: int, c: int, d: int := s[3], s[2], s[1], s[0];
    var m: int := a + 0x100 * b + 0x1_0000 * c + 0x100_0000 * d;
    assert FromBe32(s) == m;
    assert m / 0x100 == b + 0x100 * c + 0x1_0000 * d;
    assert m / 0x1_0000 == c + 0x100 * d;
    assert m / 0x100_0000 == d;
    assert m % 0x100 == a && m / 0x100 % 0x100 == b && m / 0x1_0000 % 0x100 == c;
  }

  /** A message is received exactly when its body is neither empty nor longer than 16 KiB, and then whole. */
  lemma MessageReceivedExactlyWhen(kind: byte, body: seq<byte>, rest: seq<byte>)
    ensures Receive(Message(kind, body) + rest, kind) == Some((body, rest)) <==> 0 < |body| <= 16384
  {
    hide Be32, FromBe32;
    var s := Message(kind, body) + rest;
    var len: uint32 := |body| % 0x1_0000_0000;
    assert s[2..6] == Be32(len);
    Be32Back(len);
    if 0 < |body| <= 2 * PEER_SIZE {
      assert s[6..6 + |body|] == body && s[6 + |body|..] == rest;
    }
  }

  /** Nothing else is received: any stream that yields a body begins with that body's message. */
  lemma ReceivedWasSent(s: seq<byte>, kind: byte)
    requires Receive(s, kind).Some?
    ensures var (body, rest) := Receive(s, kind).value;
            s == Message(kind, body) + rest && 0 < |body| <= 16384
  {
    hide Be32, FromBe32;
    var (body, rest) := Receive(s, kind).value;
    Be32Only(s[2..6]);
    assert |body| == FromBe32(s[2..6]);
    assert s == s[..2] + s[2..6] + body + rest;
    assert s[..2] == [1, kind];
  }

  // ---------------------------------------------------------------------------------------------
  // Peer information

  function Zeros(n: nat): seq<byte>
  {
    seq(n, _ => 0)
  }

  /** What the device tells about itself, if its name fits. */
  function DeviceInfo(guid: seq<byte>): Option<seq<byte>>
  {
    if |guid| < PEER_SIZE - 1 then Some([1] + guid + Zeros(PEER_SIZE - 1 - |guid|)) else None
  }

  /** What a host tells about itself: its public key line, padded with zeros. */
  function HostInfo(key: seq<byte>): seq<byte>
    requires |key| < PEER_SIZE - 1
  {
    [0] + key + Zeros(PEER_SIZE - 1 - |key|)
  }

  /** `position` of the first zero from `i` on. */
  function FirstZero(s: seq<byte>, i: nat): (r: Option<nat>)
    requires i <= |s|
    ensures r.Some? ==> i <= r.value < |s| && s[r.value] == 0 && forall k | i <= k < r.value :: s[k] != 0
    ensures r.None? ==> forall k | i <= k < |s| :: s[k] != 0
    decreases |s| - i
  {
    if i == |s| then None else if s[i] == 0 then Some(i) else FirstZero(s, i + 1)
  }

  /** The key in a host's information: what stands before the first zero, as text. */
  function KeyOf(info: seq<byte>): Option<seq<byte>>
  {
    if |info| != PEER_SIZE || info[0] != 0 then None
    else
      match FirstZero(info, 1)
      case None => None
      case Some(end) => if Mdns.ValidUtf8(info[1..end]) then Some(info[1..end]) else None
  }

  lemma KeyLayout(info: seq<byte>)
    requires KeyOf(info).Some?
    ensures var key := KeyOf(info).value;
            0 !in key && Mdns.ValidUtf8(key)
            && exists tail: seq<byte> :: |key| + |tail| == PEER_SIZE - 2 && info == [0] + key + [0] + tail
  {
    hide Mdns.ValidUtf8;
    var key, end := KeyOf(info).value, FirstZero(info, 1).value;
    assert info == [info[0]] + info[1..end] + [info[end]] + info[end + 1..];
    assert |key| + |info[end + 1..]| == PEER_SIZE - 2;
  }

  lemma LayoutKey(key: seq<byte>, tail: seq<byte>)
    requires |key| + |tail| == PEER_SIZE - 2 && 0 !in key && Mdns.ValidUtf8(key)
    ensures KeyOf([0] + key + [0] + tail) == Some(key)
  {
    hide Mdns.ValidUtf8;
    var info := [0] + key + [0] + tail;
    assert info[1 + |key|] == 0 && info[1..1 + |key|] == key;
    forall k | 1 <= k < 1 + |key|
      ensures info[k] != 0
    {
      assert info[k] == key[k - 1];
    }
    assert FirstZero(info, 1) == Some(1 + |key|);
  }

  /** A key line is understood exactly when it is UTF-8 text without zeros. */
  lemma KeyUnderstoodExactlyWhen(key: seq<byte>)
    requires |key| < PEER_SIZE - 1
    ensures KeyOf(HostInfo(key)) == Some(key) <==> 0 !in key && Mdns.ValidUtf8(key)
  {
    hide Mdns.ValidUtf8, KeyOf;
    if KeyOf(HostInfo(key)) == Some(key) {
      KeyLayout(HostInfo(key));
    }
    if 0 !in key && Mdns.ValidUtf8(key) {
      var tail := Zeros(PEER_SIZE - 2 - |key|);
      LayoutKey(key, tail);
      assert HostInfo(key) == [0] + key + [0] + tail;
    }
  }

  // ---------------------------------------------------------------------------------------------
  // The exchange

  /** What is foreign to the exchange: the handshake, the password-authenticated key agreement, the certificate
      library's check of a key, the commit, and which messages can be sent. */
  datatype World = World(
    tls: bool,
    own: Option<seq<byte>>,
    finish: seq<byte> -> bool,
    open: seq<byte> -> Option<seq<byte>>,
    seal: seq<byte> -> Option<seq<byte>>,
    genuine: seq<byte> -> bool,
    commit: seq<byte> -> bool,
    firstSend: bool,
    secondSend: bool)

  /** What happens outside, in order: a message is sent, or tried, and a key is committed, or refused. */
  datatype Event = Sent(message: seq<byte>) | Committed(key: seq<byte>, ok: bool)

  /** The first message of the client, which completes the key agreement; what follows it. */
  function Agreed(w: World, input: seq<byte>): Option<seq<byte>>
  {
    match Receive(input, 0)
    case None => None
    case Some((theirs, more)) => if w.finish(theirs) then Some(more) else None
  }

  /** The key in the client's second message. */
  function Offered(w: World, input: seq<byte>): Option<seq<byte>>
  {
    match Receive(input, 1)
    case None => None
    case Some((sealed, _)) =>
      match w.open(sealed)
      case None => None
      case Some(info) =>
        match KeyOf(info)
        case None => None
        case Some(key) => if w.genuine(key) then Some(key) else None
  }

  /** The client's half of the exchange, up to its key. */
  function ClientKey(w: World, input: seq<byte>): Option<seq<byte>>
  {
    match Agreed(w, input)
    case None => None
    case Some(more) => Offered(w, more)
  }

  /** `pair_with_commit`: the paired key, if all went well, and everything that happened. */
  function Pair(w: World, guid: seq<byte>, input: seq<byte>): (Option<seq<byte>>, seq<Event>)
  {
    if !w.tls || w.own.None? then (None, [])
    else
      var first := [Sent(Message(0, w.own.value))];
      if !w.firstSend || DeviceInfo(guid).None? then (None, first)
      else
        match ClientKey(w, input)
        case None => (None, first)
        case Some(key) =>
          var committed := first + [Committed(key, w.commit(key))];
          if !w.commit(key) then (None, committed)
          else
            match w.seal(DeviceInfo(guid).value)
            case None => (None, committed)
            case Some(sealed) =>
              (if w.secondSend then Some(key) else None, committed + [Sent(Message(1, sealed))])
  }

  /** A stream carries a client's half of the exchange for this key. */
  ghost predicate Offers(w: World, input: seq<byte>, key: seq<byte>)
  {
    exists theirs, sealed, rest, tail: seq<byte> |
      && 0 < |theirs| <= 16384 && 0 < |sealed| <= 16384
      && w.finish(theirs) && |key| + |tail| == 8190
      && w.open(sealed) == Some([0] + key + [0] + tail) ::
      input == Message(0, theirs) + Message(1, sealed) + rest
  }

  /** The client's key is found exactly when the stream offers it, as text without zeros the library accepts. */
  lemma KeyFoundExactlyWhen(w: World, input: seq<byte>, key: seq<byte>)
    ensures ClientKey(w, input) == Some(key) <==>
            Offers(w, input, key) && 0 !in key && Mdns.ValidUtf8(key) && w.genuine(key)
  {
    hide Mdns.ValidUtf8, Message, Receive, KeyOf;
    if ClientKey(w, input) == Some(key) {
      ReceivedWasSent(input, 0);
      var (theirs, more) := Receive(input, 0).value;
      ReceivedWasSent(more, 1);
      var (sealed, rest) := Receive(more, 1).value;
      KeyLayout(w.open(sealed).value);
      assert input == Message(0, theirs) + Message(1, sealed) + rest;
    }
    if Offers(w, input, key) && 0 !in key && Mdns.ValidUtf8(key) && w.genuine(key) {
      var theirs, sealed, rest, tail: seq<byte> :|
        && 0 < |theirs| <= 2 * PEER_SIZE && 0 < |sealed| <= 2 * PEER_SIZE
        && w.finish(theirs) && |key| + |tail| == PEER_SIZE - 2
        && w.open(sealed) == Some([0] + key + [0] + tail)
        && input == Message(0, theirs) + Message(1, sealed) + rest;
      assert input == Message(0, theirs) + (Message(1, sealed) + rest);
      MessageReceivedExactlyWhen(0, theirs, Message(1, sealed) + rest);
      MessageReceivedExactlyWhen(1, sealed, rest);
      LayoutKey(key, tail);
    }
  }

  /** The device tells about itself only after the client's own key was committed, and it tells nothing more to a
      client whose key was refused: a commit that fails cannot look like a pairing. */
  lemma DeviceAnswersOnlyAfterCommit(w: World, guid: seq<byte>, input: seq<byte>)
    ensures var (r, events) := Pair(w, guid, input);
            && |events| <= 3
            && (forall i | 0 <= i < |events| :: events[i].Committed? <==> i == 1)
            && (|events| > 1 ==>
                  && Offers(w, input, events[1].key) && w.genuine(events[1].key)
                  && events[1].ok == w.commit(events[1].key))
            && (|events| > 2 ==> events[1].ok)
            && (r.Some? <==> |events| > 2 && w.secondSend)
            && (r.Some? ==> r.value == events[1].key)
  {
    hide Message, Receive, KeyOf, ClientKey, Offers, DeviceInfo;
    if ClientKey(w, input).Some? {
      KeyFoundExactlyWhen(w, input, ClientKey(w, input).value);
    }
  }

  /** What the device sends, as its client reads it: first its own half of the key agreement, in a message of kind 0;
      last, after the commit, in a message of kind 1, the sealed information of 8192 octets: a one, its name and
      zeros. Without a handshake it sends nothing. */
  lemma DeviceSaysExactly(w: World, guid: seq<byte>, input: seq<byte>)
    ensures var events := Pair(w, guid, input).1;
            && (events == [] <==> !w.tls || w.own.None?)
            && (events != [] && 1 <= |w.own.value| <= 16384 ==>
                  events[0].Sent? && Receive(events[0].message, 0) == Some((w.own.value, [])))
            && (|events| > 2 ==>
                  && |guid| < 8191
                  && var info := [1] + guid + seq(8191 - |guid|, _ => 0);
                     && |info| == 8192 && w.seal(info).Some?
                     && (1 <= |w.seal(info).value| <= 16384 ==>
                           events[2].Sent? && Receive(events[2].message, 1) == Some((w.seal(info).value, []))))
  {
    hide Message, Receive, ClientKey;
    var events := Pair(w, guid, input).1;
    if events != [] {
      MessageReceivedExactlyWhen(0, w.own.value, []);
      assert Message(0, w.own.value) + [] == Message(0, w.own.value);
    }
    if |events| > 2 {
      var info := [1] + guid + seq(8191 - |guid|, _ => 0);
      assert DeviceInfo(guid) == Some(info);
      var sealed := w.seal(info).value;
      MessageReceivedExactlyWhen(1, sealed, []);
      assert Message(1, sealed) + [] == Message(1, sealed);
    }
  }

  /** A genuine offer whose key can be committed is paired, if everything can be sent. */
  lemma OfferIsPaired(w: World, guid: seq<byte>, input: seq<byte>, key: seq<byte>)
    requires Offers(w, input, key) && 0 !in key && Mdns.ValidUtf8(key) && w.genuine(key) && w.commit(key)
    requires w.tls && w.own.Some? && w.firstSend && w.secondSend && |guid| < 8191
    requires w.seal([1] + guid + Zeros(8191 - |guid|)).Some?
    ensures Pair(w, guid, input).0 == Some(key)
  {
    hide Message, ClientKey, Offers, Mdns.ValidUtf8;
    KeyFoundExactlyWhen(w, input, key);
  }

  class Session {
    var input: seq<byte>
    var events: seq<Event>

    constructor (input: seq<byte>)
      ensures this.input == input && events == []
    {
      this.input, events := input, [];
    }

    method Send(kind: byte, body: seq<byte>, works: bool) returns (ok: bool)
      modifies this`events
      ensures ok == works && events == old(events) + [Sent(Message(kind, body))]
    {
      events := events + [Sent(Message(kind, body))];
      ok := works;
    }

    method Take(kind: byte) returns (body: Option<seq<byte>>)
      modifies this`input
      ensures match Receive(old(input), kind)
              case None => body == None
              case Some(r) => body == Some(r.0) && input == r.1
    {
      var s := input;
      if |s| < 6 {
        return None;
      }
      input := s[6..];
      if !(s[0] == 1 && s[1] == kind) {
        return None;
      }
      var len := FromBe32(s[2..6]);
      if !(len > 0 && len <= 2 * PEER_SIZE) || len > |input| {
        return None;
      }
      assert s[6..][..len] == s[6..6 + len] && s[6..][len..] == s[6 + len..];
      body := Some(input[..len]);
      input := input[len..];
    }

    /** The buffer of the device's information is filled in place. */
    method FillPeer(guid: seq<byte>) returns (peer: Option<seq<byte>>)
      ensures peer == DeviceInfo(guid)
    {
      var buffer := new byte[PEER_SIZE](_ => 0);
      buffer[0] := 1;
      if !(|guid| < PEER_SIZE - 1) {
        return None;
      }
      for i := 0 to |guid|
        invariant buffer[0] == 1
        invariant forall k | 0 <= k < i :: buffer[1 + k] == guid[k]
        invariant forall k | i < k < PEER_SIZE :: buffer[k] == 0
      {
        buffer[1 + i] := guid[i];
      }
      assert buffer[..] == [1] + guid + Zeros(PEER_SIZE - 1 - |guid|);
      peer := Some(buffer[..]);
    }

    /** `pair_with_commit`. */
    method PairWithCommit(w: World, guid: seq<byte>) returns (key: Option<seq<byte>>)
      requires events == []
      modifies this
      ensures (key, events) == Pair(w, guid, old(input))
    {
      hide Message, Receive, KeyOf, DeviceInfo, Offered, Agreed;
      if !w.tls || w.own.None? {
        return None;
      }
      var sent := Send(0, w.own.value, w.firstSend);
      assert events == [Sent(Message(0, w.own.value))];
      if !sent {
        return None;
      }
      var agreed := Agree(w);
      if !agreed {
        return None;
      }
      var peer := FillPeer(guid);
      if peer.None? {
        return None;
      }
      var found := TakeKey(w);
      if found.None? {
        return None;
      }
      key := Conclude(w, found.value, peer.value);
    }

    /** The key is committed first; the device answers only then. */
    method Conclude(w: World, found: seq<byte>, peer: seq<byte>) returns (key: Option<seq<byte>>)
      modifies this`events
      ensures var committed := old(events) + [Committed(found, w.commit(found))];
              var sealed := w.seal(peer);
              (key, events) ==
              if !w.commit(found) || sealed.None? then (None, committed)
              else (if w.secondSend then Some(found) else None, committed + [Sent(Message(1, sealed.value))])
    {
      hide Message;
      var committed := w.commit(found);
      events := events + [Committed(found, committed)];
      if !committed {
        return None;
      }
      var sealed := w.seal(peer);
      if sealed.None? {
        return None;
      }
      var sent := Send(1, sealed.value, w.secondSend);
      key := if sent then Some(found) else None;
    }

    method Agree(w: World) returns (ok: bool)
      modifies this`input
      ensures match Agreed(w, old(input)) case None => !ok case Some(more) => ok && input == more
    {
      hide Receive;
      var theirs := Take(0);
      ok := theirs.Some? && w.finish(theirs.value);
    }

    method TakeKey(w: World) returns (key: Option<seq<byte>>)
      modifies this`input
      ensures key == Offered(w, old(input))
    {
      hide Receive, KeyOf;
      var sealed := Take(1);
      if sealed.None? {
        return None;
      }
      var info := w.open(sealed.value);
      if info.None? {
        return None;
      }
      key := KeyOf(info.value);
      if key.Some? && !w.genuine(key.value) {
        key := None;
      }
    }
  }
}
