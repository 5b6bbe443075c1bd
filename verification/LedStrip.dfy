/** The addressable LED strip: the pixel buffer of led_strip_rmt_dev.c, and the resumable encoder of
    led_strip_rmt_encoder.c that turns it into RMT symbols while the channel's memory fills and empties.

    The durations inside a symbol are left out: a symbol says which of the three it is.
  */
module LedStrip {
  import opened Bytes

  datatype Symbol = Zero | One | ResetCode

  datatype Colour = Colour(red: Byte, green: Byte, blue: Byte)

  // ---------- The stream of a pixel buffer ----------

  /** The lowest `k` bits of a number, the most significant first. */
  function BitsOf(n: nat, k: nat): (s: seq<Symbol>)
    ensures |s| == k
  {
    if k == 0 then [] else BitsOf(n / 2, k - 1) + [if n % 2 == 1 then One else Zero]
  }

  function Bits(data: seq<Byte>): seq<Symbol> {
    if data == [] then [] else BitsOf(data[0] as nat, 8) + Bits(data[1..])
  }

  /** What must reach the strip: every bit, and then one reset code. */
  function Stream(data: seq<Byte>): seq<Symbol> { Bits(data) + [ResetCode] }

  // ---------- What the strip makes of it ----------

  /** The number whose bits arrive, the most significant first. */
  function NumberOf(s: seq<Symbol>): (n: nat)
    ensures n < Power2(|s|)
  {
    if s == [] then 0 else 2 * NumberOf(s[..|s| - 1]) + if s[|s| - 1] == One then 1 else 0
  }

  lemma ByteRange()
    ensures Power2(8) == 256
  {
    assert Power2(4) == 16;
  }

  /** Eight symbols make a byte; what is left over when the stream ends is no byte. */
  function Decode(s: seq<Symbol>): seq<Byte> {
    if |s| < 8 then [] else
      ByteRange();
      [NumberOf(s[..8]) as Byte] + Decode(s[8..])
  }

  /** Three bytes make a pixel, in the order green, red, blue. */
  function Pixels(data: seq<Byte>): seq<Colour> {
    if |data| < 3 then [] else [Colour(data[1], data[0], data[2])] + Pixels(data[3..])
  }

  lemma {:induction false} NumberRoundTrip(n: nat, k: nat)
    requires n < Power2(k)
    ensures NumberOf(BitsOf(n, k)) == n
  {
    if k > 0 {
      var s := BitsOf(n, k);
      assert s[..k - 1] == BitsOf(n / 2, k - 1);
      NumberRoundTrip(n / 2, k - 1);
    }
  }

  /** The strip gets back the bytes of the buffer, and the reset code adds none. */
  lemma {:induction false} DecodeStream(data: seq<Byte>)
    ensures Decode(Stream(data)) == data
  {
    if data != [] {
      var first, rest := BitsOf(data[0] as nat, 8), Stream(data[1..]);
      assert Stream(data) == first + rest;
      assert Stream(data)[..8] == first && Stream(data)[8..] == rest;
      ByteRange();
      NumberRoundTrip(data[0] as nat, 8);
      DecodeStream(data[1..]);
    }
  }

  lemma {:induction false} PixelAt(data: seq<Byte>, i: nat)
    requires 3 * i + 2 < |data|
    ensures i < |Pixels(data)| && Pixels(data)[i] == Colour(data[3 * i + 1], data[3 * i], data[3 * i + 2])
  {
    if i > 0 {
      PixelAt(data[3..], i - 1);
    }
  }

  lemma {:induction false} PixelCount(data: seq<Byte>, n: nat)
    requires |data| == 3 * n
    ensures |Pixels(data)| == n
  {
    if n > 0 {
      PixelCount(data[3..], n - 1);
    }
  }

  // ---------- The encoder ----------

  /** What a bytes or copy encoder reports: how many symbols it wrote, and whether it is complete or memory is full. */
  datatype Outcome = Outcome(emitted: nat, complete: bool, memFull: bool)

  /** The contract of the two encoders of the RMT driver, at symbol `pos` of `total` with room for `room` symbols: they
      write the next symbols until they are done or out of space, and say so.
    */
  predicate Promised(total: nat, pos: nat, room: nat, o: Outcome) {
    && o.emitted <= room && pos + o.emitted <= total
    && (o.complete <==> pos + o.emitted == total)
    && (o.memFull ==> o.emitted == room)
    && (o.complete || o.memFull)
  }

  /** One call of the encoder by the driver: the room there is, and what the two encoders will report if called. */
  datatype Visit = Visit(room: nat, bytes: Outcome, copy: Outcome)

  /** Between calls: the state of led_encoder, and how far its bytes encoder has come. */
  datatype Session = Session(state: int, pos: nat)

  datatype Step = Step(session: Session, symbols: seq<Symbol>, complete: bool, memFull: bool)

  /** A bytes encoder that has reported COMPLETE starts again at 0, so it must not be called again in this transmission. */
  predicate ValidSession(s: Session, data: seq<Byte>) {
    (s.state == 0 && (s.pos == 0 || s.pos < |Bits(data)|)) || (s.state == 1 && s.pos == 0)
  }

  /** How much of the stream has been written. */
  function Position(s: Session, data: seq<Byte>): nat {
    if s.state == 0 then s.pos else |Bits(data)|
  }

  predicate GoesOn(s: Session, v: Visit) {
    s.state == 1 || (v.bytes.complete && !v.bytes.memFull)
  }

  /** The encoders keep their contract in this call. */
  predicate Fair(s: Session, data: seq<Byte>, v: Visit) {
    && (s.state == 0 ==> Promised(|Bits(data)|, s.pos, v.room, v.bytes))
    && (GoesOn(s, v) ==> Promised(1, 0, if s.state == 0 then v.room - v.bytes.emitted else v.room, v.copy))
  }

  /** rmt_encode_led_strip, by its two cases. */
  function Encode(s: Session, data: seq<Byte>, v: Visit): Step
    requires ValidSession(s, data) && Fair(s, data, v)
  {
    var first := if s.state == 0 then Bits(data)[s.pos..s.pos + v.bytes.emitted] else [];
    var s1 :=
      if s.state == 0 then
        if v.bytes.complete then Session(1, 0) else Session(0, s.pos + v.bytes.emitted)
      else s;
    if !GoesOn(s, v) then Step(s1, first, false, true)
    else
      var second := [ResetCode][..v.copy.emitted];
      Step(if v.copy.complete then Session(0, 0) else s1, first + second, v.copy.complete, v.copy.memFull)
  }

  /** However a call is cut short, it writes the next piece of the stream; it reports COMPLETE when, and only when, that
      piece is the last one, and is then back where it started; otherwise it has used all the room and reports MEM_FULL.
      With COMPLETE, it reports MEM_FULL too if the last encoder it called did, and only when it has used all the room.
    */
  lemma CallContinues(s: Session, data: seq<Byte>, v: Visit)
    requires ValidSession(s, data) && Fair(s, data, v)
    ensures var r, p := Encode(s, data, v), Position(s, data);
      && p + |r.symbols| <= |Stream(data)| && |r.symbols| <= v.room
      && r.symbols == Stream(data)[p..p + |r.symbols|]
      && (r.complete <==> p + |r.symbols| == |Stream(data)|)
      && (r.memFull ==> |r.symbols| == v.room)
      && (r.complete ==> (r.memFull <==> v.copy.memFull))
      && (if r.complete then r.session == Session(0, 0)
          else ValidSession(r.session, data) && Position(r.session, data) == p + |r.symbols| &&
               |r.symbols| == v.room && r.memFull)
  {
    var b, p := Bits(data), Position(s, data);
    if s.state == 0 {
      assert Stream(data)[p..p + v.bytes.emitted] == b[p..p + v.bytes.emitted];
    }
  }

  lemma SessionStaysValid(s: Session, data: seq<Byte>, v: Visit)
    requires ValidSession(s, data) && Fair(s, data, v)
    ensures ValidSession(Encode(s, data, v).session, data)
  {
    CallContinues(s, data, v);
  }

  /** The driver calls the encoder until it reports COMPLETE; each call keeps the contract. */
  ghost predicate FairRun(s: Session, data: seq<Byte>, visits: seq<Visit>)
    requires ValidSession(s, data)
    decreases |visits|
  {
    visits != [] ==>
      && Fair(s, data, visits[0])
      && (var r := Encode(s, data, visits[0]);
          CallContinues(s, data, visits[0]);
          !r.complete ==> FairRun(r.session, data, visits[1..]))
  }

  function Room(visits: seq<Visit>): nat {
    if visits == [] then 0 else visits[0].room + Room(visits[1..])
  }

  /** In the middle of a transmission: what has been written is the stream as far as the session has come, `visits` are
      still to come, and `total` is the room of all the calls.
    */
  ghost predicate Going(s: Session, data: seq<Byte>, written: seq<Symbol>, visits: seq<Visit>, total: nat) {
    && ValidSession(s, data) && FairRun(s, data, visits)
    && |written| == Position(s, data) && written == Stream(data)[..|written|]
    && |written| + Room(visits) == total
  }

  lemma NextPiece<T>(stream: seq<T>, written: seq<T>, piece: seq<T>)
    requires |written| + |piece| <= |stream|
    requires written == stream[..|written|] && piece == stream[|written|..|written| + |piece|]
    ensures written + piece == stream[..|written| + |piece|]
  {
  }

  lemma CallAdvances(s: Session, data: seq<Byte>, written: seq<Symbol>, visits: seq<Visit>, total: nat)
    requires visits != [] && Going(s, data, written, visits, total)
    ensures var r := Encode(s, data, visits[0]);
      if r.complete then written + r.symbols == Stream(data) && r.session == Session(0, 0)
      else Going(r.session, data, written + r.symbols, visits[1..], total)
  {
    var r := Encode(s, data, visits[0]);
    CallContinues(s, data, visits[0]);
    NextPiece(Stream(data), written, r.symbols);
  }

  class Strip {
    const stripLen: nat
    const pixelBuf: array<Byte>
    var state: int
    var pos: nat

    ghost predicate Valid()
      reads this, pixelBuf
    {
      pixelBuf.Length == 3 * stripLen && ValidSession(Session(state, pos), pixelBuf[..])
    }

    ghost function Colours(): seq<Colour>
      reads this, pixelBuf
    {
      Pixels(pixelBuf[..])
    }

    /** led_strip_new_rmt_device: calloc leaves every pixel black. */
    constructor (maxLeds: nat)
      ensures Valid() && fresh(pixelBuf) && stripLen == maxLeds && Session(state, pos) == Session(0, 0)
      ensures Colours() == seq(maxLeds, i => Colour(0, 0, 0))
    {
      stripLen := maxLeds;
      pixelBuf := new Byte[3 * maxLeds](i => 0);
      state, pos := 0, 0;
      new;
      AllBlack();
    }

    lemma AllBlack()
      requires pixelBuf.Length == 3 * stripLen && forall i :: 0 <= i < pixelBuf.Length ==> pixelBuf[i] == 0
      ensures Colours() == seq(stripLen, i => Colour(0, 0, 0))
    {
      PixelCount(pixelBuf[..], stripLen);
      forall i | 0 <= i < stripLen ensures Colours()[i] == Colour(0, 0, 0) {
        PixelAt(pixelBuf[..], i);
      }
    }

    /** Sets one colour and no other; an index that is not on the strip is refused. */
    method SetPixel(index: nat, red: nat, green: nat, blue: nat) returns (ok: bool)
      requires Valid()
      modifies pixelBuf
      ensures Valid() && (ok <==> index < stripLen) && |Colours()| == |old(Colours())| == stripLen
      ensures Colours() ==
        if ok then old(Colours())[index := Colour((red % 256) as Byte, (green % 256) as Byte, (blue % 256) as Byte)]
        else old(Colours())
    {
      PixelCount(pixelBuf[..], stripLen);
      if !(index < stripLen) {
        return false;
      }
      ghost var before := pixelBuf[..];
      var start := index * 3;
      pixelBuf[start + 0] := (green % 256) as Byte;
      pixelBuf[start + 1] := (red % 256) as Byte;
      pixelBuf[start + 2] := (blue % 256) as Byte;
      ok := true;
      PixelCount(pixelBuf[..], stripLen);
      BitsLength(before);
      BitsLength(pixelBuf[..]);
      forall i | 0 <= i < stripLen && i != index ensures Colours()[i] == Pixels(before)[i] {
        PixelAt(pixelBuf[..], i);
        PixelAt(before, i);
      }
      PixelAt(pixelBuf[..], index);
    }

    /** rmt_encode_led_strip. */
    method EncodeCall(v: Visit) returns (r: Step)
      requires Valid() && Fair(Session(state, pos), pixelBuf[..], v)
      modifies this
      ensures r == Encode(old(Session(state, pos)), pixelBuf[..], v) && r.session == Session(state, pos) && Valid()
    {
      ghost var e := Encode(Session(state, pos), pixelBuf[..], v);
      SessionStaysValid(Session(state, pos), pixelBuf[..], v);
      var symbols, complete, memFull := [], false, false;
      if state == 0 {
        symbols := Bits(pixelBuf[..])[pos..pos + v.bytes.emitted];
        pos := pos + v.bytes.emitted;
        if v.bytes.complete {
          state := 1;
          pos := 0;
        }
        if v.bytes.memFull {
          memFull := true;
          r := Step(Session(state, pos), symbols, complete, memFull);
          assert r == e;
          return;
        }
      }
      symbols := symbols + [ResetCode][..v.copy.emitted];
      if v.copy.complete {
        state := 0;
        complete := true;
      }
      if v.copy.memFull {
        memFull := true;
      }
      r := Step(Session(state, pos), symbols, complete, memFull);
      assert r == e;
    }

    /** rmt_led_strip_encoder_reset. */
    method Reset()
      requires pixelBuf.Length == 3 * stripLen
      modifies this
      ensures Valid() && Session(state, pos) == Session(0, 0)
    {
      state, pos := 0, 0;
    }

    /** led_strip_rmt_refresh: whatever the interruptions, what was written so far is a prefix of the stream of the
        buffer; once COMPLETE is reported it is the whole stream, and the strip reads the colours from it. With enough
        room in all, COMPLETE is reported.
      */
    method Refresh(visits: seq<Visit>) returns (symbols: seq<Symbol>, complete: bool)
      requires Valid() && Session(state, pos) == Session(0, 0)
      requires FairRun(Session(0, 0), pixelBuf[..], visits)
      modifies this
      ensures Valid() && symbols <= Stream(pixelBuf[..])
      ensures complete ==> symbols == Stream(pixelBuf[..]) && Session(state, pos) == Session(0, 0)
      ensures complete ==> Pixels(Decode(symbols)) == Colours()
      ensures Room(visits) >= |Stream(pixelBuf[..])| ==> complete
    {
      ghost var data := pixelBuf[..];
      DecodeStream(data);
      symbols, complete := [], false;
      var k := 0;
      while k < |visits| && !complete
        invariant k <= |visits| && Valid()
        invariant complete ==> symbols == Stream(data) && Session(state, pos) == Session(0, 0)
        invariant !complete ==> Going(Session(state, pos), data, symbols, visits[k..], Room(visits))
      {
        CallAdvances(Session(state, pos), data, symbols, visits[k..], Room(visits));
        var r := EncodeCall(visits[k]);
        symbols := symbols + r.symbols;
        complete := r.complete;
        k := k + 1;
      }
    }

    /** led_strip_rmt_clear. */
    method Clear(visits: seq<Visit>) returns (symbols: seq<Symbol>, complete: bool)
      requires Valid() && Session(state, pos) == Session(0, 0)
      requires FairRun(Session(0, 0), seq(3 * stripLen, i => 0), visits)
      modifies this, pixelBuf
      ensures Valid() && Colours() == seq(stripLen, i => Colour(0, 0, 0))
      ensures complete ==> symbols == Stream(pixelBuf[..]) && Pixels(Decode(symbols)) == Colours()
      ensures symbols <= Stream(pixelBuf[..]) && (Room(visits) >= |Stream(pixelBuf[..])| ==> complete)
    {
      var i := 0;
      while i < pixelBuf.Length
        invariant i <= pixelBuf.Length && forall j :: 0 <= j < i ==> pixelBuf[j] == 0
        invariant Session(state, pos) == Session(0, 0)
      {
        pixelBuf[i] := 0;
        i := i + 1;
      }
      assert pixelBuf[..] == seq(3 * stripLen, i => 0);
      AllBlack();
      symbols, complete := Refresh(visits);
    }
  }

  lemma {:induction false} BitsLength(data: seq<Byte>)
    ensures |Bits(data)| == 8 * |data|
  {
    if data != [] {
      BitsLength(data[1..]);
    }
  }
}
