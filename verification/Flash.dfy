/** Writing an image to a slot: the streamed full image, the binary delta, and the fallback from one to the other. */
module Flash {
  import opened Wrappers

  newtype byte = x: int | 0 <= x < 256

  const PROGRESS_STEP: nat := 10_485_760

  /** What stays uninterpreted: applying a binary patch, the SHA-256 digest in hex, and Unicode lower-casing. */
  datatype Codec = Codec(patch: (seq<byte>, seq<byte>) -> Option<seq<byte>>, sha: seq<byte> -> string,
                         lower: string -> string)

  /** One item of the response stream; `landed` is Some(k) when writing it fails after k bytes. */
  datatype Item = Data(bytes: seq<byte>, landed: Option<nat>) | StreamError

  /** A full-image download. `connected` covers the request, the server's status and opening the device. */
  datatype Feed = Feed(connected: bool, items: seq<Item>, contentLength: nat, syncOk: bool)

  predicate Matches(c: Codec, expected: Option<string>, image: seq<byte>) {
    expected.None? || expected.value == "" || c.sha(image) == c.lower(expected.value)
  }

  /** The device after `bytes` are written from its start. */
  function Overwrite(device: seq<byte>, bytes: seq<byte>): seq<byte>
    requires |bytes| <= |device|
  {
    bytes + device[|bytes|..]
  }

  /** All the data the stream carries. */
  function Stream(items: seq<Item>): seq<byte> {
    if items == [] then []
    else Stream(items[..|items| - 1]) + (if items[|items| - 1].Data? then items[|items| - 1].bytes else [])
  }

  /** What one item contributes when `room` bytes are left on the device. */
  predicate Fits(item: Item, room: nat) {
    item.Data? && item.landed.None? && |item.bytes| <= room
  }

  function PartOf(item: Item, room: nat): seq<byte> {
    match item
    case StreamError => []
    case Data(bytes, None) => bytes[..Min(|bytes|, room)]
    case Data(bytes, Some(k)) => bytes[..Min(k, Min(|bytes|, room))]
  }

  /** What reaches the device before the flash ends or fails. */
  function Landed(items: seq<Item>, room: nat): seq<byte>
    ensures |Landed(items, room)| <= room
    decreases items
  {
    if items == [] then []
    else if Fits(items[0], room) then items[0].bytes + Landed(items[1..], room - |items[0].bytes|)
    else PartOf(items[0], room)
  }

  predicate AllLanded(items: seq<Item>, room: nat)
    decreases items
  {
    items == [] || (Fits(items[0], room) && AllLanded(items[1..], room - |items[0].bytes|))
  }

  predicate Clean(items: seq<Item>) {
    forall i | 0 <= i < |items| :: items[i].Data? && items[i].landed.None?
  }

  lemma {:induction false} StreamFront(items: seq<Item>)
    requires items != []
    ensures Stream(items) == (if items[0].Data? then items[0].bytes else []) + Stream(items[1..])
  {
    var n := |items| - 1;
    if n > 0 {
      StreamFront(items[..n]);
      assert items[..n][1..] == items[1..][..n - 1];
      assert items[1..][n - 1] == items[n];
    }
  }

  /** The bytes that land are a prefix of the stream, and all of it when every item lands. */
  lemma {:induction false} LandedIsPrefix(items: seq<Item>, room: nat)
    ensures Landed(items, room) <= Stream(items)
    ensures AllLanded(items, room) ==> Landed(items, room) == Stream(items)
    decreases items
  {
    if items != [] {
      StreamFront(items);
      if Fits(items[0], room) {
        LandedIsPrefix(items[1..], room - |items[0].bytes|);
      }
    }
  }

  /** Without faults only the concatenation matters: chunking changes neither what lands nor whether all does. */
  lemma {:induction false} ChunkingIrrelevant(items: seq<Item>, room: nat)
    requires Clean(items)
    ensures Landed(items, room) == Stream(items)[..Min(room, |Stream(items)|)]
    ensures AllLanded(items, room) <==> |Stream(items)| <= room
    decreases items
  {
    if items != [] {
      StreamFront(items);
      if Fits(items[0], room) {
        assert forall i | 0 <= i < |items| - 1 :: items[1..][i] == items[i + 1];
        ChunkingIrrelevant(items[1..], room - |items[0].bytes|);
      }
    }
  }

  /** All of a stream lands exactly when nothing in it fails and it is no longer than the room there is. */
  lemma {:induction false} AllLandedIff(items: seq<Item>, room: nat)
    ensures AllLanded(items, room) <==>
              (forall i | 0 <= i < |items| :: items[i].Data? && items[i].landed == None) && |Stream(items)| <= room
    decreases items
  {
    if items != [] {
      StreamFront(items);
      var rest := items[1..];
      assert forall i | 0 <= i < |rest| :: rest[i] == items[i + 1];
      if Fits(items[0], room) {
        AllLandedIff(rest, room - |items[0].bytes|);
      }
    }
  }

  lemma StreamOfPrefix(items: seq<Item>, i: nat)
    requires 0 < i <= |items|
    ensures Stream(items[..i]) == (if items[0].Data? then items[0].bytes else []) + Stream(items[1..][..i - 1])
  {
    StreamFront(items[..i]);
    assert items[..i][1..] == items[1..][..i - 1];
  }

  /** Up to the first item that fails everything lands, and of that item what its failed write had written. */
  lemma {:induction false} LandsUpToFault(items: seq<Item>, i: nat, room: nat)
    requires i < |items| && |Stream(items[..i])| <= room
    requires forall k | 0 <= k < i :: items[k].Data? && items[k].landed == None
    requires items[i] == StreamError || items[i].landed.Some?
    ensures Landed(items, room) == Stream(items[..i]) + PartOf(items[i], room - |Stream(items[..i])|)
    decreases items
  {
    if i > 0 {
      var first, rest := items[0].bytes, items[1..];
      StreamOfPrefix(items, i);
      forall k | 0 <= k < i - 1 ensures rest[k].Data? && rest[k].landed == None {
        assert rest[k] == items[k + 1];
      }
      LandsUpToFault(rest, i - 1, room - |first|);
      var before, part := Stream(rest[..i - 1]), PartOf(items[i], room - |Stream(items[..i])|);
      assert Landed(items, room) == first + (before + part) == (first + before) + part;
    } else {
      assert items[..0] == [];
    }
  }

  /** Of an item whose write fails after `k` bytes, those land that there is room for; of a stream error, none. */
  lemma PartOfFault(bytes: seq<byte>, k: nat, room: nat)
    ensures PartOf(StreamError, room) == []
    ensures |PartOf(Data(bytes, Some(k)), room)| <= k && |PartOf(Data(bytes, Some(k)), room)| <= room
    ensures PartOf(Data(bytes, Some(k)), room) <= bytes
    ensures k <= |bytes| && k <= room ==> |PartOf(Data(bytes, Some(k)), room)| == k
    ensures PartOf(Data(bytes, None), room) == if |bytes| <= room then bytes else bytes[..room]
  {
  }

  /** A write from the start of the device changes the bytes it covers, and no other. */
  lemma OverwriteAt(device: seq<byte>, bytes: seq<byte>, k: nat)
    requires |bytes| <= |device| && k < |device|
    ensures |Overwrite(device, bytes)| == |device|
    ensures Overwrite(device, bytes)[k] == if k < |bytes| then bytes[k] else device[k]
  {
  }

  // ----- Progress reports -----

  /** The test made after a chunk of `len` bytes brings the total to `written`. */
  predicate ReportsProgress(written: nat, len: nat, contentLength: nat) {
    written % PROGRESS_STEP < len && contentLength > 0
  }

  function Reports(written: nat, len: nat, contentLength: nat): nat {
    if ReportsProgress(written, len, contentLength) then 1 else 0
  }

  /** A progress line appears exactly when the chunk reaches a new multiple of 10 MiB. */
  lemma ReportsIffNewMultiple(written: nat, len: nat, contentLength: nat)
    requires len <= written
    ensures ReportsProgress(written, len, contentLength) <==>
              contentLength > 0 && (written - len) / 10_485_760 < written / 10_485_760
  {
    var q, r := written / PROGRESS_STEP, written % PROGRESS_STEP;
    var q', r' := (written - len) / PROGRESS_STEP, (written - len) % PROGRESS_STEP;
    assert written == q * PROGRESS_STEP + r && written - len == q' * PROGRESS_STEP + r';
  }

  // ----- The full image -----

  function AfterFull(device: seq<byte>, feed: Feed): seq<byte> {
    if feed.connected then Overwrite(device, Landed(feed.items, |device|)) else device
  }

  predicate FullOk(c: Codec, capacity: nat, feed: Feed, expected: Option<string>) {
    feed.connected && AllLanded(feed.items, capacity) && feed.syncOk && Matches(c, expected, Stream(feed.items))
  }

  /**
   A full-image flash succeeds exactly when the download is there, none of it fails, it fits, the sync works, and
   there is no expected digest, or an empty one, or the digest of everything received is the expected one in lower
   case. What it leaves is the received image over the start of the device.
   */
  lemma FullSucceedsIff(c: Codec, device: seq<byte>, feed: Feed, expected: Option<string>)
    ensures FullOk(c, |device|, feed, expected) <==>
              && feed.connected
              && (forall i | 0 <= i < |feed.items| :: feed.items[i].Data? && feed.items[i].landed == None)
              && |Stream(feed.items)| <= |device|
              && feed.syncOk
              && (expected == None || expected == Some("") || c.sha(Stream(feed.items)) == c.lower(expected.value))
    ensures FullOk(c, |device|, feed, expected) ==>
              AfterFull(device, feed) == Stream(feed.items) + device[|Stream(feed.items)|..]
    ensures !feed.connected ==> AfterFull(device, feed) == device
  {
    AllLandedIff(feed.items, |device|);
    LandedIsPrefix(feed.items, |device|);
  }

  /** The loop's state before item `i`: `done` has landed, the rest of the items decide what else will. */
  predicate SoFar(items: seq<Item>, i: nat, done: seq<byte>, capacity: nat)
    requires i <= |items|
  {
    && |done| <= capacity
    && done == Stream(items[..i])
    && Landed(items, capacity) == done + Landed(items[i..], capacity - |done|)
    && (AllLanded(items, capacity) <==> AllLanded(items[i..], capacity - |done|))
  }

  lemma ItemLands(items: seq<Item>, i: nat, done: seq<byte>, capacity: nat)
    requires i < |items| && SoFar(items, i, done, capacity) && Fits(items[i], capacity - |done|)
    ensures SoFar(items, i + 1, done + items[i].bytes, capacity)
  {
    assert items[i..][0] == items[i] && items[i..][1..] == items[i + 1..];
    assert items[..i + 1][..i] == items[..i];
  }

  lemma ItemFails(items: seq<Item>, i: nat, done: seq<byte>, capacity: nat)
    requires i < |items| && SoFar(items, i, done, capacity) && !Fits(items[i], capacity - |done|)
    ensures Landed(items, capacity) == done + PartOf(items[i], capacity - |done|) && !AllLanded(items, capacity)
  {
    assert items[i..][0] == items[i];
  }

  predicate SmallChunks(items: seq<Item>) {
    forall i | 0 <= i < |items| :: items[i].Data? && |items[i].bytes| <= PROGRESS_STEP
  }

  /** The progress lines printed while these items are written, for a given test of the total and the chunk size. */
  function ReportCount(items: seq<Item>, test: (nat, nat) -> nat): nat {
    if items == [] then 0
    else
      var last := items[|items| - 1];
      ReportCount(items[..|items| - 1], test) + if last.Data? then test(|Stream(items)|, |last.bytes|) else 0
  }

  function ProgressTest(contentLength: nat): (nat, nat) -> nat {
    (written, len) => Reports(written, len, contentLength)
  }

  /** At most one per 10 MiB of the stream, and exactly that many when no chunk is larger than 10 MiB. */
  lemma {:induction false} ReportsBounded(items: seq<Item>, contentLength: nat)
    ensures ReportCount(items, ProgressTest(contentLength)) <= |Stream(items)| / 10_485_760
    ensures SmallChunks(items) && contentLength > 0 ==>
              ReportCount(items, ProgressTest(contentLength)) == |Stream(items)| / 10_485_760
  {
    if items != [] {
      var before, last := items[..|items| - 1], items[|items| - 1];
      ReportsBounded(before, contentLength);
      assert |Stream(before)| / PROGRESS_STEP <= |Stream(items)| / PROGRESS_STEP;
      if last.Data? && contentLength > 0 {
        ReportsIffNewMultiple(|Stream(items)|, |last.bytes|, contentLength);
      }
    }
  }

  /** The download loop up to the first item that does not land in full. */
  method WriteFitting(device: array<byte>, items: seq<Item>, test: (nat, nat) -> nat)
    returns (i: nat, hashed: seq<byte>, reports: nat)
    modifies device
    ensures i <= |items| && SoFar(items, i, hashed, device.Length)
    ensures i < |items| ==> !Fits(items[i], device.Length - |hashed|)
    ensures device[..] == Overwrite(old(device[..]), hashed)
    ensures reports == ReportCount(items[..i], test)
  {
    ghost var was := device[..];
    i, hashed, reports := 0, [], 0;
    assert items[0..] == items && items[..0] == [];
    while i < |items| && Fits(items[i], device.Length - |hashed|)
      invariant 0 <= i <= |items|
      invariant SoFar(items, i, hashed, device.Length)
      invariant device[..] == Overwrite(was, hashed)
      invariant reports == ReportCount(items[..i], test)
    {
      ItemLands(items, i, hashed, device.Length);
      assert items[..i + 1][..i] == items[..i];
      WriteNext(device, was, hashed, items[i].bytes);
      hashed := hashed + items[i].bytes;
      reports := reports + test(|hashed|, |items[i].bytes|);
      i := i + 1;
    }
  }

  /**
   The whole download, writing in place: whatever the chunks, the device ends up as before with the landed bytes
   written over its start, and what was hashed is what the stream carried if all of it landed.
   */
  method WriteStream(device: array<byte>, items: seq<Item>, test: (nat, nat) -> nat)
    returns (all: bool, hashed: seq<byte>, reports: nat)
    modifies device
    ensures device[..] == Overwrite(old(device[..]), Landed(items, device.Length))
    ensures all <==> AllLanded(items, device.Length)
    ensures all ==> hashed == Stream(items) && reports == ReportCount(items, test)
    ensures reports <= ReportCount(items, test)
  {
    ghost var was := device[..];
    var i;
    i, hashed, reports := WriteFitting(device, items, test);
    ReportsGrow(items, i, test);
    all := i == |items|;
    if all {
      assert items[..i] == items;
    } else {
      // a stream error, a failed write or a full device
      ItemFails(items, i, hashed, device.Length);
      WriteNext(device, was, hashed, PartOf(items[i], device.Length - |hashed|));
    }
  }

  lemma {:induction false} ReportsGrow(items: seq<Item>, i: nat, test: (nat, nat) -> nat)
    requires i <= |items|
    ensures ReportCount(items[..i], test) <= ReportCount(items, test)
    decreases items
  {
    if i == |items| {
      assert items[..i] == items;
    } else {
      ReportsGrow(items[..|items| - 1], i, test);
      assert items[..|items| - 1][..i] == items[..i];
    }
  }

  /** The full-image flash: success means everything landed and those bytes have the expected digest. */
  method FlashFullImage(c: Codec, device: array<byte>, feed: Feed, expected: Option<string>)
    returns (ok: bool, reports: nat)
    modifies device
    ensures device[..] == AfterFull(old(device[..]), feed)
    ensures ok <==> FullOk(c, device.Length, feed, expected)
    ensures reports <= ReportCount(feed.items, ProgressTest(feed.contentLength))
    ensures ok ==> reports == ReportCount(feed.items, ProgressTest(feed.contentLength))
  {
    ok, reports := false, 0;
    if feed.connected {
      var all, hashed;
      all, hashed, reports := WriteStream(device, feed.items, ProgressTest(feed.contentLength));
      ok := all && feed.syncOk && Matches(c, expected, hashed);
    }
  }

  /** `file.write_all` at the current position, with `done` already written from the start of the device. */
  method WriteNext(device: array<byte>, ghost was: seq<byte>, done: seq<byte>, bytes: seq<byte>)
    requires |was| == device.Length && |done| + |bytes| <= device.Length
    requires device[..] == Overwrite(was, done)
    modifies device
    ensures device[..] == Overwrite(was, done + bytes)
  {
    var k := 0;
    while k < |bytes|
      invariant 0 <= k <= |bytes|
      invariant device[..] == Overwrite(was, done + bytes[..k])
    {
      device[|done| + k] := bytes[k];
      k := k + 1;
    }
    assert bytes[..k] == bytes;
  }
}
