/** Files attached to a message (`attachments.py`): what extraction keeps of one file, and what of all of them goes on
    the wire under three shared budgets, with the rest declared file by file. */
module Attachments {
  import opened Basics

  const MAX_TEXT_CHARS_PER_FILE := 200_000
  const MAX_WIRE_TEXT_CHARS := 120_000
  const MAX_WIRE_IMAGES := 12
  const MAX_WIRE_IMAGE_BYTES := 12 * 1024 * 1024
  const MAX_DECLARED := 200

  datatype Part = Part(ref: string, text: string)

  datatype FileKind = Pdf | Picture | OtherFile

  // ---------------------------------------------------------------- extraction

  /** What a reader found in a file. */
  datatype Found = Found(parts: seq<Part>, visual: seq<string>, total: nat)

  datatype Extraction = Extraction(
    parts: seq<Part>, visual: seq<string>, total: nat, processed: int, unprocessed: seq<string>, unprocessedCount: nat)

  function TextSize(parts: seq<Part>): nat {
    if parts == [] then 0 else TextSize(parts[..|parts| - 1]) + |parts[|parts| - 1].text|
  }

  function Refs(parts: seq<Part>): seq<string> {
    seq(|parts|, i requires 0 <= i < |parts| => parts[i].ref)
  }

  /** The parts up to the first one that passes the limit are kept, in order, and the others are named. */
  method Extract(kind: FileKind, found: Found) returns (r: Extraction)
    ensures r.parts <= found.parts && r.visual == found.visual && r.total == found.total
    ensures TextSize(r.parts) <= MAX_TEXT_CHARS_PER_FILE
    ensures forall n | |r.parts| < n <= |found.parts| :: TextSize(found.parts[..n]) > MAX_TEXT_CHARS_PER_FILE
    ensures r.unprocessedCount == |found.parts| - |r.parts|
    ensures r.unprocessed == Take(Refs(found.parts[|r.parts|..]), MAX_DECLARED)
    ensures r.processed == if kind.Pdf? then found.total else found.total - r.unprocessedCount
  {
    var kept, used := 0, 0;
    while kept < |found.parts| && used + |found.parts[kept].text| <= MAX_TEXT_CHARS_PER_FILE
      invariant kept <= |found.parts| && used == TextSize(found.parts[..kept]) <= MAX_TEXT_CHARS_PER_FILE
    {
      assert found.parts[..kept + 1][..kept] == found.parts[..kept];
      used := used + |found.parts[kept].text|;
      kept := kept + 1;
    }
    forall n | kept < n <= |found.parts| ensures TextSize(found.parts[..n]) > MAX_TEXT_CHARS_PER_FILE {
      assert found.parts[..kept + 1][..kept] == found.parts[..kept];
      TextSizeGrows(found.parts, kept + 1, n);
    }
    var left := Refs(found.parts[kept..]);
    r := Extraction(found.parts[..kept], found.visual, found.total,
                    if kind.Pdf? then found.total else found.total - |left|, Take(left, MAX_DECLARED), |left|);
  }

  lemma {:induction false} TextSizeGrows(parts: seq<Part>, i: nat, j: nat)
    requires i <= j <= |parts|
    ensures TextSize(parts[..i]) <= TextSize(parts[..j])
    decreases j
  {
    if i < j {
      assert parts[..j][..j - 1] == parts[..j - 1];
      TextSizeGrows(parts, i, j - 1);
    }
  }

  // ---------------------------------------------------------------- the wire

  /** A stored file as a run reads it: its hash, what extraction kept, what extraction left out, its visual pages with
      the size of each as an image, and its own bytes if the storage gave them. */
  datatype File = File(
    sha: string, kind: FileKind, parts: seq<Part>, left: seq<string>, pages: seq<(string, nat)>, raw: Option<nat>)

  /** One thing of a file that can be sent or declared. */
  datatype Item = Left(ref: string) | Text(part: Part) | Image(ref: string, size: nat)

  datatype Budget = Budget(text: nat, images: nat, bytes: nat)

  /** What is left of the budgets, and what of the file was sent and skipped so far. */
  datatype Tally = Tally(budget: Budget, sent: seq<Item>, skipped: seq<Item>)

  predicate Fits(item: Item, b: Budget) {
    match item
    case Left(_) => false
    case Text(part) => |part.text| <= b.text
    case Image(_, size) => b.images > 0 && size <= b.bytes
  }

  function Spend(b: Budget, item: Item): Budget
    requires Fits(item, b)
  {
    match item
    case Text(part) => b.(text := b.text - |part.text|)
    case Image(_, size) => b.(images := b.images - 1, bytes := b.bytes - size)
  }

  function Offer(t: Tally, item: Item): Tally {
    if Fits(item, t.budget) then t.(budget := Spend(t.budget, item), sent := t.sent + [item])
    else t.(skipped := t.skipped + [item])
  }

  function OfferAll(t: Tally, items: seq<Item>): Tally {
    if items == [] then t else Offer(OfferAll(t, items[..|items| - 1]), items[|items| - 1])
  }

  function Lefts(file: File): seq<Item> {
    seq(|file.left|, i requires 0 <= i < |file.left| => Left(file.left[i]))
  }

  function Texts(file: File): seq<Item> {
    seq(|file.parts|, i requires 0 <= i < |file.parts| => Text(file.parts[i]))
  }

  /** An image file is one picture; the pages of another file are one picture each. */
  function Images(file: File): seq<Item> {
    if file.pages == [] then []
    else if file.kind.Picture? && file.raw.Some? then [Image("imagen", file.raw.value)]
    else seq(|file.pages|, i requires 0 <= i < |file.pages| => Image(file.pages[i].0, file.pages[i].1))
  }

  /** Texts in order, each if it fits; then the pictures, each if it fits and the file could be read. */
  function SendFile(file: File, budget: Budget): Tally {
    var t := OfferAll(Tally(budget, [], Lefts(file)), Texts(file));
    if file.raw.None? then t.(skipped := t.skipped + Images(file)) else OfferAll(t, Images(file))
  }

  datatype Entry = Entry(sent: seq<Item>, skipped: seq<Item>)

  datatype Wire = Wire(budget: Budget, parts: seq<Item>, manifest: seq<Entry>)

  predicate Complete(e: Entry) {
    e.skipped == []
  }

  function FullBudget(): Budget {
    Budget(MAX_WIRE_TEXT_CHARS, MAX_WIRE_IMAGES, MAX_WIRE_IMAGE_BYTES)
  }

  datatype WireError = Changed(index: nat)

  /** The files in order under one budget; a file whose hash is not the sealed one stops everything. */
  function Send(files: seq<File>, seals: seq<string>): Result<Wire, WireError>
    requires |files| == |seals|
  {
    if files == [] then Ok(Wire(FullBudget(), [], []))
    else
      var n := |files| - 1;
      match Send(files[..n], seals[..n])
      case Err(e) => Err(e)
      case Ok(w) =>
        if files[n].sha != seals[n] then Err(Changed(n))
        else
          var t := SendFile(files[n], w.budget);
          Ok(Wire(t.budget, w.parts + t.sent, w.manifest + [Entry(t.sent, t.skipped)]))
  }

  method WireParts(files: seq<File>, seals: seq<string>) returns (r: Result<(seq<Item>, seq<Entry>), WireError>)
    requires |files| == |seals|
    ensures r == match Send(files, seals)
                 case Ok(w) => Ok((w.parts, w.manifest))
                 case Err(e) => Err(e)
  {
    var parts: seq<Item>, manifest: seq<Entry> := [], [];
    var text, images, bytes := MAX_WIRE_TEXT_CHARS, MAX_WIRE_IMAGES, MAX_WIRE_IMAGE_BYTES;
    for i := 0 to |files|
      invariant text >= 0 && images >= 0 && bytes >= 0
      invariant Send(files[..i], seals[..i]) == Ok(Wire(Budget(text, images, bytes), parts, manifest))
    {
      assert files[..i + 1][..i] == files[..i] && seals[..i + 1][..i] == seals[..i];
      var file := files[i];
      if file.sha != seals[i] {
        FirstErrorStops(files, seals, i + 1);
        return Err(Changed(i));
      }
      var sent, skipped;
      text, images, bytes, sent, skipped := SendOne(file, text, images, bytes);
      parts := parts + sent;
      manifest := manifest + [Entry(sent, skipped)];
    }
    assert files[..|files|] == files && seals[..|seals|] == seals;
    return Ok((parts, manifest));
  }

  /** The body of the loop over files. */
  method SendOne(file: File, text0: nat, images0: nat, bytes0: nat)
    returns (text: nat, images: nat, bytes: nat, sent: seq<Item>, skipped: seq<Item>)
    ensures Tally(Budget(text, images, bytes), sent, skipped) == SendFile(file, Budget(text0, images0, bytes0))
  {
    text, images, bytes := text0, images0, bytes0;
    sent, skipped := [], Lefts(file);
    ghost var start := Tally(Budget(text, images, bytes), sent, skipped);
    for k := 0 to |file.parts|
      invariant Tally(Budget(text, images, bytes), sent, skipped) == OfferAll(start, Texts(file)[..k])
    {
      assert Texts(file)[..k + 1][..k] == Texts(file)[..k];
      var part := file.parts[k];
      if |part.text| > text {
        skipped := skipped + [Text(part)];
        continue;
      }
      text := text - |part.text|;
      sent := sent + [Text(part)];
    }
    assert Texts(file)[..|file.parts|] == Texts(file);
    ghost var half := Tally(Budget(text, images, bytes), sent, skipped);
    assert skipped + [] == skipped;
    if file.pages != [] {
      if file.raw.None? {
        skipped := skipped + Images(file);
      } else if file.kind.Picture? {
        ghost var picture := Image("imagen", file.raw.value);
        assert Images(file) == [picture] && [picture][..0] == [];
        assert OfferAll(half, [picture]) == Offer(OfferAll(half, []), picture);
        if images > 0 && file.raw.value <= bytes {
          images := images - 1;
          bytes := bytes - file.raw.value;
          sent := sent + [Image("imagen", file.raw.value)];
        } else {
          skipped := skipped + [Image("imagen", file.raw.value)];
        }
      } else {
        for k := 0 to |file.pages|
          invariant text == half.budget.text
          invariant Tally(Budget(text, images, bytes), sent, skipped) == OfferAll(half, Images(file)[..k])
        {
          assert Images(file)[..k + 1][..k] == Images(file)[..k];
          var (ref, size) := file.pages[k];
          if images == 0 || size > bytes {
            skipped := skipped + [Image(ref, size)];
            continue;
          }
          images := images - 1;
          bytes := bytes - size;
          sent := sent + [Image(ref, size)];
        }
        assert Images(file)[..|file.pages|] == Images(file);
      }
    }
  }

  lemma {:induction false} FirstErrorStops(files: seq<File>, seals: seq<string>, n: nat)
    requires |files| == |seals| && n <= |files| && Send(files[..n], seals[..n]).Err?
    ensures Send(files, seals) == Send(files[..n], seals[..n])
    decreases |files| - n
  {
    if n == |files| {
      assert files[..n] == files && seals[..n] == seals;
    } else {
      assert files[..n + 1][..n] == files[..n] && seals[..n + 1][..n] == seals[..n];
      FirstErrorStops(files, seals, n + 1);
    }
  }

  // ---------------------------------------------------------------- the budgets

  function TextOf(items: seq<Item>): nat {
    if items == [] then 0
    else TextOf(items[..|items| - 1]) + if items[|items| - 1].Text? then |items[|items| - 1].part.text| else 0
  }

  function ImagesIn(items: seq<Item>): nat {
    if items == [] then 0 else ImagesIn(items[..|items| - 1]) + if items[|items| - 1].Image? then 1 else 0
  }

  function BytesOf(items: seq<Item>): nat {
    if items == [] then 0
    else BytesOf(items[..|items| - 1]) + if items[|items| - 1].Image? then items[|items| - 1].size else 0
  }

  lemma {:induction false} SizesAppend(a: seq<Item>, b: seq<Item>)
    ensures TextOf(a + b) == TextOf(a) + TextOf(b)
    ensures ImagesIn(a + b) == ImagesIn(a) + ImagesIn(b)
    ensures BytesOf(a + b) == BytesOf(a) + BytesOf(b)
  {
    if b == [] {
      assert a + b == a;
    } else {
      assert (a + b)[..|a + b| - 1] == a + b[..|b| - 1];
      SizesAppend(a, b[..|b| - 1]);
    }
  }

  /** What is left of a budget and what was taken from it. */
  predicate Accounts(start: Budget, left: Budget, sent: seq<Item>) {
    && left.text + TextOf(sent) == start.text
    && left.images + ImagesIn(sent) == start.images
    && left.bytes + BytesOf(sent) == start.bytes
  }

  lemma OfferAccounts(start: Budget, t: Tally, item: Item)
    requires Accounts(start, t.budget, t.sent)
    ensures Accounts(start, Offer(t, item).budget, Offer(t, item).sent)
  {
    SizesAppend(t.sent, [item]);
    assert [item][..0] == [];
  }

  lemma {:induction false} OffersAccount(start: Budget, t: Tally, items: seq<Item>)
    requires Accounts(start, t.budget, t.sent)
    ensures Accounts(start, OfferAll(t, items).budget, OfferAll(t, items).sent)
  {
    if items != [] {
      var n := |items| - 1;
      OffersAccount(start, t, items[..n]);
      OfferAccounts(start, OfferAll(t, items[..n]), items[n]);
    }
  }

  lemma FileAccounts(file: File, budget: Budget)
    ensures Accounts(budget, SendFile(file, budget).budget, SendFile(file, budget).sent)
  {
    OffersAccount(budget, Tally(budget, [], Lefts(file)), Texts(file));
    OffersAccount(budget, OfferAll(Tally(budget, [], Lefts(file)), Texts(file)), Images(file));
  }

  /** Whatever the files hold, what goes on the wire stays within the three shared budgets. */
  lemma {:induction false} BudgetsAreNeverExceeded(files: seq<File>, seals: seq<string>)
    requires |files| == |seals| && Send(files, seals).Ok?
    ensures var w := Send(files, seals).value; Accounts(FullBudget(), w.budget, w.parts)
    ensures var w := Send(files, seals).value;
      && TextOf(w.parts) <= MAX_WIRE_TEXT_CHARS && ImagesIn(w.parts) <= MAX_WIRE_IMAGES
      && BytesOf(w.parts) <= MAX_WIRE_IMAGE_BYTES
  {
    if files != [] {
      var n := |files| - 1;
      BudgetsAreNeverExceeded(files[..n], seals[..n]);
      var before := Send(files[..n], seals[..n]).value;
      FileAccounts(files[n], before.budget);
      SizesAppend(before.parts, SendFile(files[n], before.budget).sent);
    }
  }

  // ---------------------------------------------------------------- coverage

  /** All an item list was about, sent or skipped. */
  function Handled(t: Tally): multiset<Item> {
    multiset(t.sent) + multiset(t.skipped)
  }

  lemma OfferPartition(t: Tally, item: Item)
    ensures Handled(Offer(t, item)) == Handled(t) + multiset{item}
  {
  }

  lemma {:induction false} OffersPartition(t: Tally, items: seq<Item>)
    ensures Handled(OfferAll(t, items)) == Handled(t) + multiset(items)
  {
    if items != [] {
      var n := |items| - 1;
      OffersPartition(t, items[..n]);
      OfferPartition(OfferAll(t, items[..n]), items[n]);
      assert items == items[..n] + [items[n]];
    }
  }

  function Items(file: File): seq<Item> {
    Lefts(file) + Texts(file) + Images(file)
  }

  /** Everything of a file — what extraction left out, each text, each picture — is either sent or declared as not
      processed, once. */
  lemma FileIsCovered(file: File, budget: Budget)
    ensures Handled(SendFile(file, budget)) == multiset(Items(file))
  {
    var start := Tally(budget, [], Lefts(file));
    var half := OfferAll(start, Texts(file));
    assert Handled(start) == multiset(Lefts(file));
    OffersPartition(start, Texts(file));
    OffersPartition(half, Images(file));
    JoinedMultisets(Lefts(file), Texts(file), Images(file));
    assert multiset(half.skipped + Images(file)) == multiset(half.skipped) + multiset(Images(file));
  }

  lemma JoinedMultisets(a: seq<Item>, b: seq<Item>, c: seq<Item>)
    ensures multiset(a + b + c) == multiset(a) + multiset(b) + multiset(c)
    ensures multiset(b + c) == multiset(b) + multiset(c)
  {
  }

  function Gather(manifest: seq<Entry>): seq<Item> {
    if manifest == [] then [] else Gather(manifest[..|manifest| - 1]) + manifest[|manifest| - 1].sent
  }

  /** The manifest is what was said of each file in turn, under some budget. */
  lemma {:induction false} EntryOf(files: seq<File>, seals: seq<string>, i: nat) returns (budget: Budget)
    requires |files| == |seals| && Send(files, seals).Ok? && i < |files|
    ensures |Send(files, seals).value.manifest| == |files|
    ensures var t := SendFile(files[i], budget); Send(files, seals).value.manifest[i] == Entry(t.sent, t.skipped)
  {
    var n := |files| - 1;
    SendStep(files, seals);
    if n > 0 {
      var _ := EntryOf(files[..n], seals[..n], 0);
    }
    if i < n {
      budget := EntryOf(files[..n], seals[..n], i);
    } else {
      budget := Send(files[..n], seals[..n]).value.budget;
    }
  }

  lemma SendStep(files: seq<File>, seals: seq<string>)
    requires |files| == |seals| > 0 && Send(files, seals).Ok?
    ensures var n := |files| - 1;
      && Send(files[..n], seals[..n]).Ok?
      && var t := SendFile(files[n], Send(files[..n], seals[..n]).value.budget);
      && Send(files, seals).value.manifest == Send(files[..n], seals[..n]).value.manifest + [Entry(t.sent, t.skipped)]
      && Send(files, seals).value.parts == Send(files[..n], seals[..n]).value.parts + t.sent
  {
  }

  /** The manifest names as sent exactly the parts on the wire. */
  lemma {:induction false} PartsAreTheSent(files: seq<File>, seals: seq<string>)
    requires |files| == |seals| && Send(files, seals).Ok?
    ensures Send(files, seals).value.parts == Gather(Send(files, seals).value.manifest)
  {
    if files != [] {
      SendStep(files, seals);
      PartsAreTheSent(files[..|files| - 1], seals[..|files| - 1]);
      var m := Send(files, seals).value.manifest;
      assert m[..|m| - 1] == Send(files[..|files| - 1], seals[..|files| - 1]).value.manifest;
    }
  }

  /** Whether all of the file is in the entry, each thing once, either sent or not processed. */
  ghost predicate CoversFile(e: Entry, file: File) {
    multiset(e.sent) + multiset(e.skipped) == multiset(Items(file))
  }

  /** The manifest covers every file, in order, and names as sent exactly the parts on the wire. */
  lemma ManifestCoversEveryFile(files: seq<File>, seals: seq<string>)
    requires |files| == |seals| && Send(files, seals).Ok?
    ensures var w := Send(files, seals).value;
      && |w.manifest| == |files| && w.parts == Gather(w.manifest)
      && forall i | 0 <= i < |files| :: CoversFile(w.manifest[i], files[i])
  {
    PartsAreTheSent(files, seals);
    if files != [] {
      var _ := EntryOf(files, seals, 0);
    }
    forall i | 0 <= i < |files| ensures CoversFile(Send(files, seals).value.manifest[i], files[i]) {
      var budget := EntryOf(files, seals, i);
      FileIsCovered(files[i], budget);
    }
  }

  /** «Complete» is said of a file exactly when extraction left nothing out and all of it was sent. */
  lemma CompleteIffAllWasSent(files: seq<File>, seals: seq<string>, i: nat)
    requires |files| == |seals| && Send(files, seals).Ok? && i < |files|
    ensures |Send(files, seals).value.manifest| == |files|
    ensures var e := Send(files, seals).value.manifest[i];
      Complete(e) <==> files[i].left == [] && multiset(e.sent) == multiset(Texts(files[i]) + Images(files[i]))
  {
    var budget := EntryOf(files, seals, i);
    FileIsCovered(files[i], budget);
    FileSkipsItsLefts(files[i], budget);
    EntryIsCompleteIff(Send(files, seals).value.manifest[i], files[i]);
  }

  lemma EntryIsCompleteIff(e: Entry, file: File)
    requires CoversFile(e, file) && multiset(Lefts(file)) <= multiset(e.skipped)
    ensures Complete(e) <==> file.left == [] && multiset(e.sent) == multiset(Texts(file) + Images(file))
  {
    JoinedMultisets(Lefts(file), Texts(file), Images(file));
    NothingLeftOver(e, multiset(Lefts(file)), multiset(Texts(file) + Images(file)));
    assert |multiset(Lefts(file))| == |Lefts(file)| == |file.left|;
  }

  lemma NothingLeftOver(e: Entry, lefts: multiset<Item>, others: multiset<Item>)
    requires multiset(e.sent) + multiset(e.skipped) == lefts + others && lefts <= multiset(e.skipped)
    ensures Complete(e) <==> lefts == multiset{} && multiset(e.sent) == others
  {
    assert |multiset(e.skipped)| == |e.skipped|;
    if lefts == multiset{} && multiset(e.sent) == others {
      assert multiset(e.skipped) == (multiset(e.sent) + multiset(e.skipped)) - multiset(e.sent) == multiset{};
    }
    if Complete(e) {
      assert multiset(e.skipped) == multiset{};
      assert lefts == multiset{};
      assert multiset(e.sent) == lefts + others == others;
    }
  }

  lemma {:induction false} OffersKeepSkipped(t: Tally, items: seq<Item>)
    ensures multiset(t.skipped) <= multiset(OfferAll(t, items).skipped)
  {
    if items != [] {
      OffersKeepSkipped(t, items[..|items| - 1]);
    }
  }

  lemma FileSkipsItsLefts(file: File, budget: Budget)
    ensures multiset(Lefts(file)) <= multiset(SendFile(file, budget).skipped)
  {
    var start := Tally(budget, [], Lefts(file));
    OffersKeepSkipped(start, Texts(file));
    OffersKeepSkipped(OfferAll(start, Texts(file)), Images(file));
    assert multiset(OfferAll(start, Texts(file)).skipped + Images(file))
        == multiset(OfferAll(start, Texts(file)).skipped) + multiset(Images(file));
  }

  // ---------------------------------------------------------------- nothing is skipped that still fits

  predicate Within(a: Budget, b: Budget) {
    a.text <= b.text && a.images <= b.images && a.bytes <= b.bytes
  }

  /** Nothing skipped would fit what is left. */
  predicate NoneFits(items: seq<Item>, b: Budget) {
    forall i | 0 <= i < |items| :: !Fits(items[i], b)
  }

  lemma {:induction false} OffersSkipWhatDoesNotFit(t: Tally, items: seq<Item>)
    requires NoneFits(t.skipped, t.budget)
    ensures var after := OfferAll(t, items); Within(after.budget, t.budget) && NoneFits(after.skipped, after.budget)
  {
    if items != [] {
      OffersSkipWhatDoesNotFit(t, items[..|items| - 1]);
    }
  }

  lemma FileSkipsWhatDoesNotFit(file: File, budget: Budget)
    ensures var t := SendFile(file, budget);
      Within(t.budget, budget) && (file.raw.Some? ==> NoneFits(t.skipped, t.budget))
  {
    var t := Tally(budget, [], Lefts(file));
    OffersSkipWhatDoesNotFit(t, Texts(file));
    if file.raw.Some? {
      OffersSkipWhatDoesNotFit(OfferAll(t, Texts(file)), Images(file));
    }
  }

  /** After the last file, nothing of a file that could be read was skipped that the budgets left would still hold. */
  lemma {:induction false} NothingSkippedWouldStillFit(files: seq<File>, seals: seq<string>)
    requires |files| == |seals| && Send(files, seals).Ok?
    ensures var w := Send(files, seals).value;
      && |w.manifest| == |files|
      && forall i | 0 <= i < |files| && files[i].raw.Some? :: NoneFits(w.manifest[i].skipped, w.budget)
  {
    if files != [] {
      var n := |files| - 1;
      NothingSkippedWouldStillFit(files[..n], seals[..n]);
      FileSkipsWhatDoesNotFit(files[n], Send(files[..n], seals[..n]).value.budget);
    }
  }
}
