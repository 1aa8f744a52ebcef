/** The binary event payloads of the analytics script: zig-zag base-128 longs, fixed ids and
    length-prefixed strings, as in the Apache Avro specification, "Binary Encoding". */
module AnalyticsPayloads {
  import opened Options

  type Byte = b: int | 0 <= b < 256

  // ---------------------------------------------------------------- longs

  const TWO_63: int := 0x8000_0000_0000_0000
  const TWO_64: int := 0x1_0000_0000_0000_0000

  predicate Int64(v: int) { -TWO_63 <= v < TWO_63 }

  /** Exclusive or with a mask that is all zeros or all ones, in two's complement. */
  function XorMask(x: int, mask: int): int
    requires mask == 0 || mask == -1
  {
    if mask == 0 then x else -x - 1
  }

  /** The value shifted left by one, exclusive-or its sign, as an unsigned 64-bit number.
      Division by a positive number rounds down, as BigInt's right shift does. */
  function ZigZag(v: int): (n: int)
    requires Int64(v)
    ensures 0 <= n < TWO_64
    ensures n == if v >= 0 then 2 * v else -2 * v - 1
  {
    XorMask(2 * v, v / TWO_63) % TWO_64
  }

  function UnZigZag(n: nat): int {
    if n % 2 == 0 then n / 2 else -(n / 2) - 1
  }

  function Varint(n: nat): seq<Byte> {
    if n < 128 then [n] else [n % 128 + 128] + Varint(n / 128)
  }

  function LongBytes(v: int): seq<Byte>
    requires Int64(v)
  {
    Varint(ZigZag(v))
  }

  /** Seven bits at a time, lowest first; every byte but the last has its top bit set. */
  method EncodeLong(v: int) returns (bytes: seq<Byte>)
    requires Int64(v)
    ensures bytes == LongBytes(v)
    ensures 1 <= |bytes| <= 10
  {
    var encoded: nat := XorMask(2 * v, v / TWO_63) % TWO_64;
    bytes := [];
    while encoded >= 128
      invariant bytes + Varint(encoded) == LongBytes(v)
    {
      ghost var was := encoded;
      bytes := bytes + [encoded % 128 + 128];
      encoded := encoded / 128;
      assert bytes + Varint(encoded) == bytes[..|bytes| - 1] + ([was % 128 + 128] + Varint(encoded));
    }
    bytes := bytes + [encoded];
    LongLength(v);
  }

  function ReadVarint(bytes: seq<Byte>): Option<(nat, seq<Byte>)> {
    if bytes == [] then None
    else if bytes[0] < 128 then Some((bytes[0], bytes[1..]))
    else
      match ReadVarint(bytes[1..])
      case None => None
      case Some((high, rest)) => Some((bytes[0] - 128 + 128 * high, rest))
  }

  function ReadLong(bytes: seq<Byte>): Option<(int, seq<Byte>)> {
    match ReadVarint(bytes)
    case None => None
    case Some((n, rest)) => Some((UnZigZag(n), rest))
  }

  lemma {:induction false} VarintRoundTrip(n: nat, rest: seq<Byte>)
    ensures ReadVarint(Varint(n) + rest) == Some((n, rest))
    decreases n
  {
    var bytes := Varint(n) + rest;
    if n < 128 {
      assert bytes[1..] == rest;
    } else {
      assert bytes[1..] == Varint(n / 128) + rest;
      VarintRoundTrip(n / 128, rest);
    }
  }

  /** Every signed 64-bit value reads back, whatever bytes follow. */
  lemma LongRoundTrip(v: int, rest: seq<Byte>)
    requires Int64(v)
    ensures ReadLong(LongBytes(v) + rest) == Some((v, rest))
  {
    VarintRoundTrip(ZigZag(v), rest);
  }

  function Power128(k: nat): nat { if k == 0 then 1 else 128 * Power128(k - 1) }

  lemma {:induction false} VarintLength(n: nat, k: nat)
    requires k > 0 && n < Power128(k)
    ensures 1 <= |Varint(n)| <= k
    decreases k
  {
    assert Power128(1) == 128;
    if n >= 128 {
      VarintLength(n / 128, k - 1);
    }
  }

  /** A long takes 1 to 10 bytes. */
  lemma LongLength(v: int)
    requires Int64(v)
    ensures 1 <= |LongBytes(v)| <= 10
  {
    assert Power128(1) == 128 && Power128(2) == 0x4000 && Power128(3) == 0x20_0000;
    assert Power128(5) == 0x8_0000_0000 by { assert Power128(4) == 0x1000_0000; }
    assert Power128(7) == 0x2_0000_0000_0000 by { assert Power128(6) == 0x400_0000_0000; }
    assert Power128(9) == 0x8000_0000_0000_0000 by { assert Power128(8) == 0x100_0000_0000_0000; }
    assert Power128(10) == 128 * Power128(9);
    VarintLength(ZigZag(v), 10);
  }

  // ---------------------------------------------------------------- parts

  /** A long, an id of a fixed length, or the bytes of a string after their count. */
  datatype Part = Long(v: int) | Fixed(id: seq<Byte>) | Text(bytes: seq<Byte>)
  {
    predicate Encodable() {
      match this
      case Long(v) => Int64(v)
      case Fixed(_) => true
      case Text(bytes) => |bytes| < TWO_63
    }

    function Kind(): Kind {
      match this
      case Long(_) => LongKind
      case Fixed(id) => FixedKind(|id|)
      case Text(_) => TextKind
    }

    function Encoded(): seq<Byte>
      requires Encodable()
    {
      match this
      case Long(v) => LongBytes(v)
      case Fixed(id) => id
      case Text(bytes) => LongBytes(|bytes|) + bytes
    }
  }

  datatype Kind = LongKind | FixedKind(length: nat) | TextKind

  predicate AllEncodable(parts: seq<Part>) {
    forall i :: 0 <= i < |parts| ==> parts[i].Encodable()
  }

  function EncodeParts(parts: seq<Part>): seq<Byte>
    requires AllEncodable(parts)
  {
    if parts == [] then [] else parts[0].Encoded() + EncodeParts(parts[1..])
  }

  function Kinds(parts: seq<Part>): seq<Kind> {
    if parts == [] then [] else [parts[0].Kind()] + Kinds(parts[1..])
  }

  function ReadPart(kind: Kind, bytes: seq<Byte>): Option<(Part, seq<Byte>)> {
    match kind
    case LongKind =>
      (match ReadLong(bytes)
       case None => None
       case Some((v, rest)) => Some((Long(v), rest)))
    case FixedKind(length) => if |bytes| < length then None else Some((Fixed(bytes[..length]), bytes[length..]))
    case TextKind =>
      (match ReadLong(bytes)
       case None => None
       case Some((n, rest)) => if n < 0 || |rest| < n then None else Some((Text(rest[..n]), rest[n..])))
  }

  function ReadParts(kinds: seq<Kind>, bytes: seq<Byte>): Option<(seq<Part>, seq<Byte>)>
    decreases |kinds|
  {
    if kinds == [] then Some(([], bytes))
    else
      match ReadPart(kinds[0], bytes)
      case None => None
      case Some((part, rest)) =>
        match ReadParts(kinds[1..], rest)
        case None => None
        case Some((parts, after)) => Some(([part] + parts, after))
  }

  lemma PartRoundTrip(part: Part, rest: seq<Byte>)
    requires part.Encodable()
    ensures ReadPart(part.Kind(), part.Encoded() + rest) == Some((part, rest))
  {
    match part
    case Long(v) => LongRoundTrip(v, rest);
    case Fixed(id) =>
      assert (id + rest)[..|id|] == id && (id + rest)[|id|..] == rest;
    case Text(bytes) =>
      LongRoundTrip(|bytes|, bytes + rest);
      assert LongBytes(|bytes|) + bytes + rest == LongBytes(|bytes|) + (bytes + rest);
      assert (bytes + rest)[..|bytes|] == bytes && (bytes + rest)[|bytes|..] == rest;
  }

  lemma ReadOneMore(kinds: seq<Kind>, bytes: seq<Byte>, part: Part, after: seq<Byte>, parts: seq<Part>, rest: seq<Byte>)
    requires kinds != [] && ReadPart(kinds[0], bytes) == Some((part, after))
    requires ReadParts(kinds[1..], after) == Some((parts, rest))
    ensures ReadParts(kinds, bytes) == Some(([part] + parts, rest))
  {
  }

  lemma {:induction false} PartsRoundTrip(parts: seq<Part>, rest: seq<Byte>)
    requires AllEncodable(parts)
    ensures ReadParts(Kinds(parts), EncodeParts(parts) + rest) == Some((parts, rest))
    decreases |parts|
  {
    if parts != [] {
      var (part, others) := (parts[0], parts[1..]);
      var (bytes, after) := (EncodeParts(parts) + rest, EncodeParts(others) + rest);
      assert bytes == part.Encoded() + after;
      PartRoundTrip(part, after);
      PartsRoundTrip(others, rest);
      assert Kinds(parts)[0] == part.Kind() && Kinds(parts)[1..] == Kinds(others);
      ReadOneMore(Kinds(parts), bytes, part, after, others, rest);
      assert [part] + others == parts;
    } else {
      assert EncodeParts(parts) + rest == rest;
    }
  }

  // ---------------------------------------------------------------- payloads

  const SESSION_CREATED := 1
  const SESSION_ENDED := 2
  const PAGE_VIEW := 3
  const MAX_BODY := 1024

  /** Strings are given as their UTF-8 bytes. */
  datatype Payload =
    | PageView(at: int, path: seq<Byte>)
    | SessionCreated(at: int, client: seq<Byte>, session: seq<Byte>, path: seq<Byte>, referrer: seq<Byte>,
                     userAgent: seq<Byte>, language: seq<Byte>, timezone: seq<Byte>, width: int, height: int)
    | SessionEnded(at: int, reason: int)
  {
    /** Times, sizes and reasons are 64-bit; ids are 16 bytes. */
    predicate WellFormed() {
      Int64(at) &&
      match this
      case PageView(_, _) => true
      case SessionCreated(_, client, session, _, _, _, _, _, width, height) =>
        |client| == 16 && |session| == 16 && Int64(width) && Int64(height)
      case SessionEnded(_, reason) => Int64(reason)
    }

    function EventType(): int {
      match this
      case PageView(_, _) => PAGE_VIEW
      case SessionCreated(_, _, _, _, _, _, _, _, _, _) => SESSION_CREATED
      case SessionEnded(_, _) => SESSION_ENDED
    }

    function Body(): seq<Part> {
      match this
      case PageView(_, path) => [Text(path)]
      case SessionCreated(_, client, session, path, referrer, userAgent, language, timezone, width, height) =>
        [Fixed(client), Fixed(session), Text(path), Text(referrer), Text(userAgent), Text(language), Text(timezone),
         Long(width), Long(height)]
      case SessionEnded(_, reason) => [Long(reason)]
    }

    function Parts(): seq<Part> {
      [Long(at), Long(EventType())] + Body()
    }
  }

  datatype Encoding = Encoded(bytes: seq<Byte>) | EmptyPath | FieldTooLong(field: string) | BodyTooLarge

  /** The first field that exceeds its limit, in the order the script checks them. */
  function CheckFields(p: Payload): Option<Encoding> {
    match p
    case PageView(_, path) => CheckPath(path)
    case SessionCreated(_, _, _, path, referrer, userAgent, language, timezone, _, _) =>
      if CheckPath(path).Some? then CheckPath(path)
      else if |referrer| > 4096 then Some(FieldTooLong("referrer"))
      else if |userAgent| > 256 then Some(FieldTooLong("user_agent"))
      else if |language| > 64 then Some(FieldTooLong("language"))
      else if |timezone| > 64 then Some(FieldTooLong("timezone"))
      else None
    case SessionEnded(_, _) => None
  }

  function CheckPath(path: seq<Byte>): Option<Encoding> {
    if path == [] then Some(EmptyPath) else if |path| > 2048 then Some(FieldTooLong("path")) else None
  }

  lemma CheckedEncodable(p: Payload)
    requires p.WellFormed() && CheckFields(p).None?
    ensures AllEncodable(p.Parts())
  {
    assert forall i :: 0 <= i < |p.Body()| ==> p.Body()[i].Encodable();
  }

  function Encode(p: Payload): Encoding
    requires p.WellFormed()
  {
    if CheckFields(p).Some? then CheckFields(p).value
    else
      CheckedEncodable(p);
      var bytes := EncodeParts(p.Parts());
      if |bytes| > MAX_BODY then BodyTooLarge else Encoded(bytes)
  }

  function BodyKinds(eventType: int): Option<seq<Kind>> {
    if eventType == PAGE_VIEW then Some([TextKind])
    else if eventType == SESSION_CREATED then
      Some([FixedKind(16), FixedKind(16), TextKind, TextKind, TextKind, TextKind, TextKind, LongKind, LongKind])
    else if eventType == SESSION_ENDED then Some([LongKind])
    else None
  }

  /** Reads a payload: the event type in it says which parts follow. */
  function Decode(bytes: seq<Byte>): Option<(int, int, seq<Part>)> {
    match ReadLong(bytes)
    case None => None
    case Some((at, afterTime)) =>
      match ReadLong(afterTime)
      case None => None
      case Some((eventType, afterType)) =>
        match BodyKinds(eventType)
        case None => None
        case Some(kinds) =>
          match ReadParts(kinds, afterType)
          case None => None
          case Some((parts, rest)) => if rest == [] then Some((at, eventType, parts)) else None
  }

  lemma {:induction false} KindsAt(parts: seq<Part>)
    ensures |Kinds(parts)| == |parts|
    ensures forall i :: 0 <= i < |parts| ==> Kinds(parts)[i] == parts[i].Kind()
    decreases |parts|
  {
    if parts != [] { KindsAt(parts[1..]); }
  }

  lemma BodyKindsMatch(p: Payload)
    requires p.WellFormed()
    ensures BodyKinds(p.EventType()) == Some(Kinds(p.Body()))
  {
    KindsAt(p.Body());
    var (kinds, body) := (BodyKinds(p.EventType()).value, p.Body());
    assert |kinds| == |body|;
    forall i | 0 <= i < |kinds| ensures kinds[i] == body[i].Kind() {}
    assert kinds == Kinds(body);
  }

  /** An encoded payload decodes to its time, type and fields. */
  lemma PayloadRoundTrip(p: Payload)
    requires p.WellFormed() && Encode(p).Encoded?
    ensures Decode(Encode(p).bytes) == Some((p.at, p.EventType(), p.Body()))
  {
    CheckedEncodable(p);
    var (head, body) := (p.Parts()[1..], p.Body());
    assert head[1..] == body && AllEncodable(body) && AllEncodable(head);
    LongRoundTrip(p.at, EncodeParts(head));
    LongRoundTrip(p.EventType(), EncodeParts(body));
    BodyKindsMatch(p);
    PartsRoundTrip(body, []);
    assert EncodeParts(body) + [] == EncodeParts(body);
  }

  /** A payload determines its event: two that encode to the same bytes are the same. */
  lemma PayloadsDecodeUniquely(p: Payload, q: Payload)
    requires p.WellFormed() && q.WellFormed() && Encode(p).Encoded? && Encode(p) == Encode(q)
    ensures p == q
  {
    PayloadRoundTrip(p);
    PayloadRoundTrip(q);
  }

  // ---------------------------------------------------------------- buffers

  function Flatten(parts: seq<seq<Byte>>): seq<Byte> {
    if parts == [] then [] else parts[0] + Flatten(parts[1..])
  }

  lemma {:induction false} FlattenSplit(parts: seq<seq<Byte>>, i: nat)
    requires i < |parts|
    ensures Flatten(parts[..i + 1]) == Flatten(parts[..i]) + parts[i]
    ensures |Flatten(parts[..i + 1])| <= |Flatten(parts)|
  {
    if i == 0 {
      var first := [parts[0]];
      assert parts[..1] == first && first[1..] == parts[..0];
      assert Flatten(first) == parts[0] + Flatten(first[1..]);
    } else {
      FlattenSplit(parts[1..], i - 1);
      assert parts[..i + 1][1..] == parts[1..][..i] && parts[..i][1..] == parts[1..][..i - 1];
    }
  }

  /** Sizes the buffer first, then copies each part at its offset. */
  method ConcatenateBytes(parts: seq<seq<Byte>>) returns (combined: array<Byte>)
    ensures fresh(combined) && combined[..] == Flatten(parts)
  {
    var totalLength := 0;
    for i := 0 to |parts|
      invariant totalLength == |Flatten(parts[..i])|
    {
      FlattenSplit(parts, i);
      totalLength := totalLength + |parts[i]|;
    }
    assert parts[..|parts|] == parts;
    combined := new Byte[totalLength](_ => 0);
    var offset := 0;
    for i := 0 to |parts|
      invariant offset == |Flatten(parts[..i])| <= combined.Length == |Flatten(parts)|
      invariant combined[..offset] == Flatten(parts[..i])
    {
      FlattenSplit(parts, i);
      CopyInto(combined, offset, parts[i]);
      offset := offset + |parts[i]|;
    }
  }

  /** Sets a part at its offset, and leaves what is in front of it. */
  method CopyInto(combined: array<Byte>, offset: nat, part: seq<Byte>)
    requires offset + |part| <= combined.Length
    modifies combined
    ensures combined[..offset + |part|] == old(combined[..offset]) + part
  {
    ghost var front := combined[..offset];
    for j := 0 to |part|
      invariant combined[..offset] == front
      invariant combined[offset..offset + j] == part[..j]
    {
      combined[offset + j] := part[j];
    }
    assert combined[..offset + |part|] == combined[..offset] + combined[offset..offset + |part|];
  }

  /** The byte runs a payload is put together from; a string is two of them. */
  function Pieces(parts: seq<Part>): seq<seq<Byte>>
    requires AllEncodable(parts)
  {
    if parts == [] then []
    else (if parts[0].Text? then [LongBytes(|parts[0].bytes|), parts[0].bytes] else [parts[0].Encoded()]) + Pieces(parts[1..])
  }

  lemma {:induction false} PiecesFlatten(parts: seq<Part>)
    requires AllEncodable(parts)
    ensures Flatten(Pieces(parts)) == EncodeParts(parts)
    decreases |parts|
  {
    if parts != [] {
      PiecesFlatten(parts[1..]);
      var (pieces, rest) := (Pieces(parts), Pieces(parts[1..]));
      if parts[0].Text? {
        assert pieces[1..][1..] == rest;
        assert Flatten(pieces) == LongBytes(|parts[0].bytes|) + (parts[0].bytes + Flatten(rest));
      } else {
        assert pieces[1..] == rest;
      }
    }
  }

  /** Checks the fields, fills a buffer of the right size, and checks the body's limit. */
  method EncodePayload(p: Payload) returns (encoding: Encoding)
    requires p.WellFormed()
    ensures encoding == Encode(p)
  {
    var failed := CheckFields(p);
    if failed.Some? {
      return failed.value;
    }
    CheckedEncodable(p);
    PiecesFlatten(p.Parts());
    var buffer := ConcatenateBytes(Pieces(p.Parts()));
    if buffer.Length > MAX_BODY {
      return BodyTooLarge;
    }
    return Encoded(buffer[..]);
  }

  // ---------------------------------------------------------------- what is on the wire

  /** Examples of the Avro specification. */
  lemma {:induction false} LongExamples()
    ensures LongBytes(0) == [0x00] && LongBytes(-1) == [0x01] && LongBytes(1) == [0x02]
    ensures LongBytes(-2) == [0x03] && LongBytes(2) == [0x04]
    ensures LongBytes(-64) == [0x7f] && LongBytes(64) == [0x80, 0x01]
  {
    assert Varint(128) == [0x80] + Varint(1);
  }

  /** The number shifted right by seven bits, `i` times. */
  function Shifted(n: nat, i: nat): nat { if i == 0 then n else Shifted(n / 128, i - 1) }

  /** Byte `i` of a varint holds the seven bits from 7 * i on, and whether more follow; nothing
      is left over, and the last byte is zero only for zero. */
  lemma {:induction false} VarintAt(n: nat, i: nat)
    requires i < |Varint(n)|
    ensures Varint(n)[i] == Shifted(n, i) % 128 + (if i + 1 < |Varint(n)| then 128 else 0)
    ensures i + 1 == |Varint(n)| ==> Shifted(n, i) < 128 && (Shifted(n, i) == 0 ==> n == 0)
    decreases n
  {
    if i > 0 { VarintAt(n / 128, i - 1); }
  }

  function TextBytes(bytes: seq<Byte>): seq<Byte>
    requires |bytes| < TWO_63
  {
    LongBytes(|bytes|) + bytes
  }

  /** A page view: its time, event type 3, and the path after its length. It is encoded exactly
      if the path has 1 to 2048 bytes and the whole no more than 1024. */
  lemma {:induction false} PageViewBytes(at: int, path: seq<Byte>)
    requires Int64(at)
    ensures var p := PageView(at, path);
      && (path == [] ==> Encode(p) == EmptyPath)
      && (|path| > 2048 ==> Encode(p) == FieldTooLong("path"))
      && (1 <= |path| <= 2048 ==>
          var bytes := LongBytes(at) + [6] + TextBytes(path);
          Encode(p) == if |bytes| <= 1024 then Encoded(bytes) else BodyTooLarge)
  {
    if 1 <= |path| <= 2048 {
      LongAtThree();
      var parts := PageView(at, path).Parts();
      assert parts == [Long(at), Long(3), Text(path)];
      CheckedEncodable(PageView(at, path));
      ThreeParts(parts);
    }
  }

  lemma {:induction false} LongAtThree()
    ensures LongBytes(1) == [2] && LongBytes(2) == [4] && LongBytes(3) == [6]
  {
  }

  lemma {:induction false} FirstParts(parts: seq<Part>)
    requires |parts| >= 2 && AllEncodable(parts)
    ensures AllEncodable(parts[2..]) && EncodeParts(parts) == parts[0].Encoded() + parts[1].Encoded() + EncodeParts(parts[2..])
  {
    assert parts[1..][1..] == parts[2..];
    assert EncodeParts(parts[1..]) == parts[1].Encoded() + EncodeParts(parts[1..][1..]);
  }

  lemma {:induction false} ThreeParts(parts: seq<Part>)
    requires |parts| == 3 && AllEncodable(parts)
    ensures EncodeParts(parts) == parts[0].Encoded() + parts[1].Encoded() + parts[2].Encoded()
  {
    var last := parts[2..];
    FirstParts(parts);
    assert last[0] == parts[2] && last[1..] == [];
    assert EncodeParts(last) == last[0].Encoded() + EncodeParts(last[1..]);
  }

  /** The end of a session: its time, event type 2 and the reason. */
  lemma {:induction false} SessionEndedBytes(at: int, reason: int)
    requires Int64(at) && Int64(reason)
    ensures Encode(SessionEnded(at, reason)) == Encoded(LongBytes(at) + [4] + LongBytes(reason))
  {
    LongAtThree();
    LongLength(at);
    LongLength(reason);
    var parts := SessionEnded(at, reason).Parts();
    assert parts == [Long(at), Long(2), Long(reason)];
    CheckedEncodable(SessionEnded(at, reason));
    ThreeParts(parts);
  }

  /** The fields of a new session fit: the path and four more strings each have their limit. */
  predicate Fits(path: seq<Byte>, referrer: seq<Byte>, userAgent: seq<Byte>, language: seq<Byte>, timezone: seq<Byte>) {
    1 <= |path| <= 2048 && |referrer| <= 4096 && |userAgent| <= 256 && |language| <= 64 && |timezone| <= 64
  }

  /** A new session: its time, event type 1, the two ids as they are, five strings after their
      lengths, and the screen's two sizes. It is encoded exactly if its fields fit and the whole
      has no more than 1024 bytes; otherwise the first field that does not fit is named. */
  lemma {:induction false} SessionCreatedBytes(at: int, client: seq<Byte>, session: seq<Byte>, path: seq<Byte>,
                                               referrer: seq<Byte>,
                                               userAgent: seq<Byte>, language: seq<Byte>, timezone: seq<Byte>, width: int, height: int)
    requires Int64(at) && Int64(width) && Int64(height) && |client| == 16 && |session| == 16
    ensures var p := SessionCreated(at, client, session, path, referrer, userAgent, language, timezone, width, height);
      if Fits(path, referrer, userAgent, language, timezone) then
        var bytes := LongBytes(at) + [2] + (client + session + (TextBytes(path) + TextBytes(referrer) +
                       (TextBytes(userAgent) + TextBytes(language) + (TextBytes(timezone) + LongBytes(width) + LongBytes(height)))));
        Encode(p) == if |bytes| <= 1024 then Encoded(bytes) else BodyTooLarge
      else Encode(p) == if path == [] then EmptyPath else FieldTooLong(
        if |path| > 2048 then "path" else if |referrer| > 4096 then "referrer" else if |userAgent| > 256 then "user_agent"
        else if |language| > 64 then "language" else "timezone")
  {
    if Fits(path, referrer, userAgent, language, timezone) {
      LongAtThree();
      var p := SessionCreated(at, client, session, path, referrer, userAgent, language, timezone, width, height);
      var parts := p.Parts();
      CheckedEncodable(p);
      SessionCreatedParts(p);
    }
  }

  lemma {:induction false} SessionCreatedParts(p: Payload)
    requires p.SessionCreated? && p.WellFormed() && AllEncodable(p.Parts())
    requires Fits(p.path, p.referrer, p.userAgent, p.language, p.timezone)
    ensures EncodeParts(p.Parts()) == LongBytes(p.at) + LongBytes(1) + (p.client + p.session + (TextBytes(p.path) + TextBytes(p.referrer) +
      (TextBytes(p.userAgent) + TextBytes(p.language) + (TextBytes(p.timezone) + LongBytes(p.width) + LongBytes(p.height)))))
  {
    var all := p.Parts();
    var (a, b, c) := (all[2..], all[2..][2..], all[2..][2..][2..]);
    var d := c[2..];
    FirstParts(all);
    FirstParts(a);
    FirstParts(b);
    FirstParts(c);
    assert a == p.Body() && b == [Text(p.path), Text(p.referrer), Text(p.userAgent), Text(p.language), Text(p.timezone), Long(p.width), Long(p.height)];
    assert c == [Text(p.userAgent), Text(p.language), Text(p.timezone), Long(p.width), Long(p.height)];
    assert d == [Text(p.timezone), Long(p.width), Long(p.height)];
    ThreeParts(d);
  }
}
