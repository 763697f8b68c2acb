/** The canonical fingerprint: the bytes that are hashed for a list of files, and why they determine the list. */
module Fingerprint {
  import opened Common

  /** A canonical file: its path below the events root, and its content. */
  datatype CanonicalFile = CanonicalFile(name: seq<Byte>, payload: seq<Byte>)

  const LENGTH_BYTES: nat := 8
  const VERSION: string := "canonical-jsonl-sha256-v1"

  // ----- Lengths in eight big-endian bytes -----

  function Power(exponent: nat): (p: nat)
    ensures p >= 1
  {
    if exponent == 0 then 1 else 256 * Power(exponent - 1)
  }

  function BigEndian(n: nat, width: nat): (bytes: seq<Byte>)
    ensures |bytes| == width
  {
    if width == 0 then [] else BigEndian(n / 256, width - 1) + [n % 256]
  }

  function Value(bytes: seq<Byte>): nat {
    if bytes == [] then 0 else Value(bytes[..|bytes| - 1]) * 256 + bytes[|bytes| - 1]
  }

  lemma {:induction false} BigEndianRoundTrip(n: nat, width: nat)
    requires n < Power(width)
    ensures Value(BigEndian(n, width)) == n
  {
    if width > 0 {
      BigEndianRoundTrip(n / 256, width - 1);
      assert BigEndian(n, width)[..width - 1] == BigEndian(n / 256, width - 1);
    }
  }

  lemma {:induction false} ValueRoundTrip(bytes: seq<Byte>)
    ensures Value(bytes) < Power(|bytes|) && BigEndian(Value(bytes), |bytes|) == bytes
    decreases |bytes|
  {
    if bytes != [] {
      var front, last := bytes[..|bytes| - 1], bytes[|bytes| - 1];
      ValueRoundTrip(front);
      assert Value(bytes) / 256 == Value(front) && Value(bytes) % 256 == last;
      assert front + [last] == bytes;
    }
  }

  // ----- The hashed bytes -----

  function Header(): seq<Byte> {
    seq(|VERSION|, i requires 0 <= i < |VERSION| => VERSION[i] as int % 256) + [0]
  }

  /** A length in eight bytes, and as many bytes. */
  function Framed(bytes: seq<Byte>): seq<Byte> {
    BigEndian(|bytes|, LENGTH_BYTES) + bytes
  }

  function FrameFile(file: CanonicalFile): seq<Byte> {
    Framed(file.name) + Framed(file.payload)
  }

  function Frames(files: seq<CanonicalFile>): seq<Byte> {
    if files == [] then [] else FrameFile(files[0]) + Frames(files[1..])
  }

  function Preimage(files: seq<CanonicalFile>): seq<Byte> {
    Header() + Frames(files)
  }

  /** Lengths that fit in eight bytes; a longer one makes the program raise. */
  predicate Fits(file: CanonicalFile) {
    |file.name| < Power(LENGTH_BYTES) && |file.payload| < Power(LENGTH_BYTES)
  }

  predicate Encodable(files: seq<CanonicalFile>) {
    forall i | 0 <= i < |files| :: Fits(files[i])
  }

  // ----- Parsing them back -----

  datatype Parsed<T> = Parsed(value: T, rest: seq<Byte>)

  function TakeFramed(bytes: seq<Byte>): Option<Parsed<seq<Byte>>> {
    if |bytes| < LENGTH_BYTES then None
    else
      var n := Value(bytes[..LENGTH_BYTES]);
      if |bytes| - LENGTH_BYTES < n then None
      else Some(Parsed(bytes[LENGTH_BYTES..LENGTH_BYTES + n], bytes[LENGTH_BYTES + n..]))
  }

  function TakeFile(bytes: seq<Byte>): Option<Parsed<CanonicalFile>> {
    var name := TakeFramed(bytes);
    if name.None? then None
    else
      var payload := TakeFramed(name.value.rest);
      if payload.None? then None
      else Some(Parsed(CanonicalFile(name.value.value, payload.value.value), payload.value.rest))
  }

  function ParseFrames(bytes: seq<Byte>): Option<seq<CanonicalFile>>
    decreases |bytes|
  {
    if bytes == [] then Some([])
    else
      var first := TakeFile(bytes);
      if first.None? || |first.value.rest| >= |bytes| then None
      else
        var others := ParseFrames(first.value.rest);
        if others.None? then None else Some([first.value.value] + others.value)
  }

  function Parse(bytes: seq<Byte>): Option<seq<CanonicalFile>> {
    if |bytes| < |Header()| || bytes[..|Header()|] != Header() then None else ParseFrames(bytes[|Header()|..])
  }

  lemma TakeFramedRoundTrip(bytes: seq<Byte>, rest: seq<Byte>)
    requires |bytes| < Power(LENGTH_BYTES)
    ensures TakeFramed(Framed(bytes) + rest) == Some(Parsed(bytes, rest))
  {
    BigEndianRoundTrip(|bytes|, LENGTH_BYTES);
    var all := Framed(bytes) + rest;
    assert all[..LENGTH_BYTES] == BigEndian(|bytes|, LENGTH_BYTES);
    assert all[LENGTH_BYTES..LENGTH_BYTES + |bytes|] == bytes && all[LENGTH_BYTES + |bytes|..] == rest;
  }

  lemma TakeFramedExact(all: seq<Byte>)
    requires TakeFramed(all).Some?
    ensures var p := TakeFramed(all).value;
      |p.value| < Power(LENGTH_BYTES) && Framed(p.value) + p.rest == all
  {
    ValueRoundTrip(all[..LENGTH_BYTES]);
    var p := TakeFramed(all).value;
    assert |p.value| == Value(all[..LENGTH_BYTES]);
    assert all == all[..LENGTH_BYTES] + all[LENGTH_BYTES..LENGTH_BYTES + |p.value|] + all[LENGTH_BYTES + |p.value|..];
  }

  lemma TakeFileRoundTrip(file: CanonicalFile, rest: seq<Byte>)
    requires Fits(file)
    ensures TakeFile(FrameFile(file) + rest) == Some(Parsed(file, rest))
  {
    assert FrameFile(file) + rest == Framed(file.name) + (Framed(file.payload) + rest);
    TakeFramedRoundTrip(file.name, Framed(file.payload) + rest);
    TakeFramedRoundTrip(file.payload, rest);
  }

  lemma TakeFileExact(all: seq<Byte>)
    requires TakeFile(all).Some?
    ensures var p := TakeFile(all).value;
      Fits(p.value) && FrameFile(p.value) + p.rest == all
  {
    TakeFramedExact(all);
    var name := TakeFramed(all).value;
    TakeFramedExact(name.rest);
    var payload := TakeFramed(name.rest).value;
    assert Framed(name.value) + (Framed(payload.value) + payload.rest) == (Framed(name.value) + Framed(payload.value)) + payload.rest;
  }

  lemma {:induction false} FramesRoundTrip(files: seq<CanonicalFile>)
    requires Encodable(files)
    ensures ParseFrames(Frames(files)) == Some(files)
    decreases |files|
  {
    if files != [] {
      TakeFileRoundTrip(files[0], Frames(files[1..]));
      FramesRoundTrip(files[1..]);
      assert [files[0]] + files[1..] == files;
    }
  }

  lemma {:induction false} FramesExact(bytes: seq<Byte>)
    requires ParseFrames(bytes).Some?
    ensures Encodable(ParseFrames(bytes).value) && Frames(ParseFrames(bytes).value) == bytes
    decreases |bytes|
  {
    if bytes != [] {
      TakeFileExact(bytes);
      var first := TakeFile(bytes).value;
      FramesExact(first.rest);
      assert ParseFrames(bytes).value[1..] == ParseFrames(first.rest).value;
    }
  }

  /** The hashed bytes parse back to exactly the files, and bytes that parse are the bytes hashed for that list. */
  lemma ParsesExactly(bytes: seq<Byte>, files: seq<CanonicalFile>)
    ensures Parse(bytes) == Some(files) <==> Encodable(files) && Preimage(files) == bytes
  {
    var h := |Header()|;
    if Parse(bytes) == Some(files) {
      FramesExact(bytes[h..]);
      assert bytes == bytes[..h] + bytes[h..];
    }
    if Encodable(files) && Preimage(files) == bytes {
      FramesRoundTrip(files);
      assert bytes[..h] == Header() && bytes[h..] == Frames(files);
    }
  }

  /** Equal hashed bytes mean equal lists of names and contents. */
  lemma EqualPreimagesMeanEqualFiles(a: seq<CanonicalFile>, b: seq<CanonicalFile>)
    requires Encodable(a) && Encodable(b) && Preimage(a) == Preimage(b)
    ensures a == b
  {
    ParsesExactly(Preimage(a), a);
    ParsesExactly(Preimage(b), b);
  }

  // ----- The loop that feeds the digest -----

  /** A hash object: what it has been fed so far. */
  class Sha256 {
    var fed: seq<Byte>

    constructor ()
      ensures fed == []
    {
      fed := [];
    }

    method Update(bytes: seq<Byte>)
      modifies this
      ensures fed == old(fed) + bytes
    {
      fed := fed + bytes;
    }
  }

  /** The length in eight bytes, or none where the conversion overflows. */
  function LengthBytes(n: nat): (r: Option<seq<Byte>>)
    ensures r.Some? <==> n < Power(LENGTH_BYTES)
    ensures r.Some? ==> r.value == BigEndian(n, LENGTH_BYTES) && Value(r.value) == n
  {
    if n < Power(LENGTH_BYTES) then
      BigEndianRoundTrip(n, LENGTH_BYTES);
      Some(BigEndian(n, LENGTH_BYTES))
    else None
  }

  lemma {:induction false} FramesAppend(files: seq<CanonicalFile>, more: seq<CanonicalFile>)
    ensures Frames(files + more) == Frames(files) + Frames(more)
    decreases |files|
  {
    if files == [] {
      assert files + more == more;
    } else {
      assert (files + more)[0] == files[0] && (files + more)[1..] == files[1..] + more;
      FramesAppend(files[1..], more);
    }
  }

  lemma Regroup(all: seq<Byte>, a: seq<Byte>, b: seq<Byte>, c: seq<Byte>, d: seq<Byte>)
    ensures all + a + b + c + d == all + ((a + b) + (c + d))
  {
  }

  lemma OneMoreFile(files: seq<CanonicalFile>, i: nat, lengthOfName: seq<Byte>, lengthOfPayload: seq<Byte>)
    requires i < |files|
    requires lengthOfName + files[i].name == Framed(files[i].name)
    requires lengthOfPayload + files[i].payload == Framed(files[i].payload)
    ensures Preimage(files[..i]) + lengthOfName + files[i].name + lengthOfPayload + files[i].payload == Preimage(files[..i + 1])
  {
    assert files[..i + 1] == files[..i] + [files[i]];
    FramesAppend(files[..i], [files[i]]);
    assert [files[i]][1..] == [] && Frames([files[i]]) == FrameFile(files[i]) + [];
    Regroup(Preimage(files[..i]), lengthOfName, files[i].name, lengthOfPayload, files[i].payload);
    assert Header() + (Frames(files[..i]) + FrameFile(files[i])) == Preimage(files[..i]) + FrameFile(files[i]);
  }

  method CanonicalFingerprint(files: seq<CanonicalFile>) returns (hashed: Option<seq<Byte>>)
    ensures hashed.Some? <==> Encodable(files)
    ensures hashed.Some? ==> hashed.value == Preimage(files) && Parse(hashed.value) == Some(files)
  {
    var digest := new Sha256();
    digest.Update(Header());
    for i := 0 to |files|
      invariant digest.fed == Preimage(files[..i])
      invariant Encodable(files[..i])
    {
      var lengthOfName := LengthBytes(|files[i].name|);
      var lengthOfPayload := LengthBytes(|files[i].payload|);
      if lengthOfName.None? || lengthOfPayload.None? {
        return None;
      }
      digest.Update(lengthOfName.value);
      digest.Update(files[i].name);
      digest.Update(lengthOfPayload.value);
      digest.Update(files[i].payload);
      OneMoreFile(files, i, lengthOfName.value, lengthOfPayload.value);
    }
    assert files[..|files|] == files;
    ParsesExactly(digest.fed, files);
    return Some(digest.fed);
  }
}
