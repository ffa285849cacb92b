// Values shared by every module: bytes, readiness, errors, settings, tokens, commands,
// and the answers an environment gives to the server.
module Types {

  newtype Byte = x: int | 0 <= x < 256

  type Bytes = seq<Byte>

  datatype Option<+T> = None | Some(value: T)

  datatype Result<+T> = Ok(value: T) | Err(error: Kind)

  datatype Outcome = Pass | Fail(error: Kind)

  /** Error kinds; only an I/O error carries a value the server looks at, its OS error number. */
  datatype Kind =
    | Internal | Capacity | Protocol | Encoding | Http | Queue | Timer | Custom
    | Io(errno: Option<int>)

  const CONNECTION_REFUSED: int := 111

  /** A readiness set, used both as an interest and as what poll reports. */
  datatype Interest = Interest(readable: bool, writable: bool) {
    predicate Any() {
      readable || writable
    }
  }

  const NOTHING := Interest(false, false)

  datatype Settings = Settings(
    maxConnections: nat,
    inBufferCapacity: nat,
    inBufferGrow: bool,
    outBufferCapacity: nat,
    outBufferGrow: bool,
    panicOnNewConnection: bool,
    panicOnShutdown: bool,
    panicOnInternal: bool,
    panicOnCapacity: bool,
    panicOnProtocol: bool,
    panicOnEncoding: bool,
    panicOnQueue: bool,
    panicOnIo: bool,
    panicOnTimeout: bool,
    shutdownOnInterrupt: bool,
    tcpNodelay: bool)
  {
    /** Whether reporting an error of this kind panics instead. */
    predicate PanicsOn(kind: Kind) {
      match kind
      case Internal => panicOnInternal
      case Capacity => panicOnCapacity
      case Protocol => panicOnProtocol
      case Encoding => panicOnEncoding
      case Http => false
      case Custom => false
      case Timer => panicOnTimeout
      case Queue => panicOnQueue
      case Io(_) => panicOnIo
    }
  }

  // Tokens are machine words; the four largest useful ones are reserved.
  const USIZE_MAX: nat := 0xFFFF_FFFF_FFFF_FFFF
  const QUEUE: nat := USIZE_MAX - 3
  const TIMER: nat := USIZE_MAX - 4
  const ALL: nat := USIZE_MAX - 5
  const SYSTEM: nat := USIZE_MAX - 6

  // Connection ids are 32-bit and wrap.
  const ID_SPACE: nat := 0x1_0000_0000

  datatype Signal =
    | Message(payload: Bytes)
    | Close
    | Connect(url: string)
    | Shutdown
    | Timeout(event: nat)
    | Cancel

  datatype Command = Command(token: nat, signal: Signal, id: nat)

  // What a socket may answer to one read, and to one write.
  datatype ReadResult = Data(bytes: Bytes) | ReadBlocks | ReadFails(errno: Option<int>)
  datatype WriteResult = Takes(count: nat) | WriteBlocks | WriteFails(errno: Option<int>)

  function Min(a: nat, b: nat): nat {
    if a < b then a else b
  }

  function Max(a: nat, b: nat): nat {
    if a < b then b else a
  }

  /** The concatenation of a list of byte strings. */
  function Flatten(chunks: seq<Bytes>): Bytes {
    if chunks == [] then [] else Flatten(chunks[..|chunks| - 1]) + chunks[|chunks| - 1]
  }

  lemma FlattenSnoc(chunks: seq<Bytes>, last: Bytes)
    ensures Flatten(chunks + [last]) == Flatten(chunks) + last
  {
  }

  lemma {:induction false} FlattenAppend(a: seq<Bytes>, b: seq<Bytes>)
    ensures Flatten(a + b) == Flatten(a) + Flatten(b)
  {
    if b == [] {
      assert a + b == a;
    } else {
      var front, last := b[..|b| - 1], b[|b| - 1];
      FlattenAppend(a, front);
      assert a + b == (a + front) + [last];
      FlattenSnoc(a + front, last);
    }
  }

  predicate Continues(b: Bytes, i: nat) {
    i < |b| && 0x80 <= b[i] <= 0xBF
  }

  /** The number of bytes of the well-formed character that starts b, or 0 when there is none
      (the table of section 4 of RFC 3629). */
  function CharLength(b: Bytes): (n: nat)
    ensures n <= |b|
  {
    if b == [] then 0
    else if b[0] <= 0x7F then 1
    else if 0xC2 <= b[0] <= 0xDF && Continues(b, 1) then 2
    else if Continues(b, 1) && Continues(b, 2) && (
              || (b[0] == 0xE0 && 0xA0 <= b[1])
              || (0xE1 <= b[0] <= 0xEF && (b[0] == 0xED ==> b[1] <= 0x9F))) then 3
    else if Continues(b, 1) && Continues(b, 2) && Continues(b, 3) && (
              || (b[0] == 0xF0 && 0x90 <= b[1])
              || 0xF1 <= b[0] <= 0xF3
              || (b[0] == 0xF4 && b[1] <= 0x8F)) then 4
    else 0
  }

  predicate ValidUtf8(b: Bytes) {
    b == [] || (CharLength(b) != 0 && ValidUtf8(b[CharLength(b)..]))
  }

  /** Those of the chunks that are text, in order. */
  function TextChunks(chunks: seq<Bytes>): seq<Bytes> {
    if chunks == [] then []
    else
      var front, last := chunks[..|chunks| - 1], chunks[|chunks| - 1];
      if ValidUtf8(last) then TextChunks(front) + [last] else TextChunks(front)
  }

  lemma TextChunksSnoc(chunks: seq<Bytes>, last: Bytes)
    ensures TextChunks(chunks + [last]) == if ValidUtf8(last) then TextChunks(chunks) + [last] else TextChunks(chunks)
  {
  }
}
