/** pkg/workflow/config.go: the value of DAPR_MCP_SERVER_WORKFLOW_APPS, a comma-separated
    list of app-id=host:port pairs, as a map; and the printer it is inverse to. */
module AppsConfig {
  import opened Text

  datatype Entry = Blank | Malformed(text: string) | Pair(id: string, addr: string)

  datatype ParseError = InvalidEntry(text: string) | DuplicateAppID(id: string)

  type Apps = map<string, string>

  /** One comma-separated entry: trimmed, cut at its first '=', both halves trimmed. */
  function Classify(piece: string): Entry {
    var entry := Trim(piece);
    if entry == "" then Blank
    else if '=' !in entry then Malformed(entry)
    else
      var cut := Index(entry, '=');
      var id, addr := Trim(entry[..cut]), Trim(entry[cut + 1..]);
      if id == "" || addr == "" then Malformed(entry) else Pair(id, addr)
  }

  // ----- what an entry says, in terms of its text -----

  /** The text names an app and its address on the two sides of its first '='. */
  ghost predicate Names(piece: string, id: string, addr: string) {
    exists left, right ::
      && piece == left + "=" + right && '=' !in left && !AllSpace(left) && !AllSpace(right)
      && id == Trim(left) && addr == Trim(right)
  }

  /** The text is not blank, and does not have something on both sides of a first '='. */
  ghost predicate IsMalformed(piece: string) {
    && !AllSpace(piece)
    && forall left, right | piece == left + "=" + right && '=' !in left :: AllSpace(left) || AllSpace(right)
  }

  lemma FirstEqualsUnique(a: string, b: string, c: string, d: string)
    requires '=' !in a && '=' !in c && a + "=" + b == c + "=" + d
    ensures a == c && b == d
  {
    IndexAt(a, '=', b);
    IndexAt(c, '=', d);
    var s := a + "=" + b;
    assert s == a + ['='] + b == c + ['='] + d;
    assert a == s[..|a|] && c == s[..|c|] && b == s[|a| + 1..] && d == s[|c| + 1..];
  }

  /** An entry with an '=' in its trimmed text, cut there. */
  lemma ClassifyCut(piece: string) returns (left: string, right: string)
    requires '=' in Trim(piece)
    ensures piece == left + "=" + right && '=' !in left && !AllSpace(piece)
    ensures Classify(piece) ==
            if AllSpace(left) || AllSpace(right) then Malformed(Trim(piece)) else Pair(Trim(left), Trim(right))
  {
    var entry := Trim(piece);
    var a, b := TrimSplits(piece);
    var cut := Index(entry, '=');
    var l, r := entry[..cut], entry[cut + 1..];
    left, right := a + l, r + b;
    assert entry == l + "=" + r;
    assert piece == left + "=" + right;
    assert a + l + "" == left && "" + r + b == right;
    TrimIgnoresPadding(a, l, "");
    TrimIgnoresPadding("", r, b);
    TrimmedAway(left);
    TrimmedAway(right);
    TrimmedAway(piece);
  }

  lemma WithoutEquals(piece: string)
    requires '=' !in Trim(piece)
    ensures '=' !in piece
  {
    var a, b := TrimSplits(piece);
    assert !IsSpace('=');
  }

  /** Exactly which entries are blank, malformed or pairs, and what they hold. */
  lemma ClassifyExact(piece: string)
    ensures Classify(piece).Blank? <==> AllSpace(piece)
    ensures forall text :: Classify(piece) == Malformed(text) <==> IsMalformed(piece) && text == Trim(piece)
    ensures forall id, addr :: Classify(piece) == Pair(id, addr) <==> Names(piece, id, addr)
  {
    TrimmedAway(piece);
    if '=' in Trim(piece) {
      var l, r := ClassifyCut(piece);
      forall left, right | piece == left + "=" + right && '=' !in left ensures left == l && right == r {
        FirstEqualsUnique(left, right, l, r);
      }
      if !AllSpace(l) && !AllSpace(r) {
        assert Names(piece, Trim(l), Trim(r));
      }
    } else {
      WithoutEquals(piece);
      assert forall left: string, right: string :: (left + "=" + right)[|left|] == '=';
    }
  }

  ghost function Entries(pieces: seq<string>): (r: seq<Entry>)
    ensures |r| == |pieces|
  {
    if pieces == [] then [] else [Classify(pieces[0])] + Entries(pieces[1..])
  }

  lemma {:induction false} EntryAt(pieces: seq<string>, k: nat)
    requires k < |pieces|
    ensures Entries(pieces)[k] == Classify(pieces[k])
  {
    if k == 0 {
    } else {
      EntryAt(pieces[1..], k - 1);
    }
  }

  ghost function EntriesOf(raw: string): seq<Entry> {
    Entries(Split(raw, ','))
  }

  // ----- what parsing means, entry by entry and without an order of evaluation -----

  ghost predicate Repeats(es: seq<Entry>, i: nat) {
    i < |es| && es[i].Pair? && exists j | 0 <= j < i :: es[j].Pair? && es[j].id == es[i].id
  }

  ghost predicate Offends(es: seq<Entry>, i: nat) {
    i < |es| && (es[i].Malformed? || Repeats(es, i))
  }

  ghost predicate FirstOffence(es: seq<Entry>, i: nat) {
    Offends(es, i) && forall j | 0 <= j < i :: !Offends(es, j)
  }

  ghost function OffenceAt(es: seq<Entry>, i: nat): ParseError
    requires Offends(es, i)
  {
    match es[i]
    case Malformed(text) => InvalidEntry(text)
    case Pair(id, _) => DuplicateAppID(id)
  }

  /** apps holds exactly the pairs among the first n entries. */
  ghost predicate Collects(es: seq<Entry>, n: nat, apps: Apps) {
    && n <= |es|
    && (forall i | 0 <= i < n && es[i].Pair? :: es[i].id in apps && apps[es[i].id] == es[i].addr)
    && (forall id | id in apps :: exists i | 0 <= i < n :: es[i] == Pair(id, apps[id]))
  }

  ghost function NonBlank(es: seq<Entry>, n: nat): nat
    requires n <= |es|
  {
    if n == 0 then 0 else NonBlank(es, n - 1) + if es[n - 1].Blank? then 0 else 1
  }

  /** The result is decided by the first offending entry; without one it is the set of pairs. */
  ghost predicate Reads(es: seq<Entry>, r: Result<Apps, ParseError>) {
    match r
    case Failure(error) => exists i :: FirstOffence(es, i) && error == OffenceAt(es, i)
    case Success(apps) => (forall i | 0 <= i < |es| :: !Offends(es, i)) && Collects(es, |es|, apps)
  }

  ghost predicate IsParse(raw: string, r: Result<Apps, ParseError>) {
    Reads(EntriesOf(raw), r)
  }

  /** The pairs among the first n entries, later ones replacing earlier ones. */
  ghost function Gathered(es: seq<Entry>, n: nat): Apps
    requires n <= |es|
  {
    if n == 0 then map[]
    else if es[n - 1].Pair? then Gathered(es, n - 1)[es[n - 1].id := es[n - 1].addr]
    else Gathered(es, n - 1)
  }

  lemma {:induction false} GatheredKeys(es: seq<Entry>, n: nat, id: string)
    requires n <= |es|
    ensures id in Gathered(es, n) <==> exists i | 0 <= i < n :: es[i].Pair? && es[i].id == id
  {
    if n == 0 {
    } else {
      GatheredKeys(es, n - 1, id);
    }
  }

  lemma CollectOne(es: seq<Entry>, k: nat, apps: Apps)
    requires k < |es| && Collects(es, k, apps) && es[k].Pair? && es[k].id !in apps
    ensures Collects(es, k + 1, apps[es[k].id := es[k].addr])
  {
    var next := apps[es[k].id := es[k].addr];
    forall id | id in next ensures exists i | 0 <= i < k + 1 :: es[i] == Pair(id, next[id]) {
      if es[k] != Pair(id, next[id]) {
        var i :| 0 <= i < k && es[i] == Pair(id, apps[id]);
      }
    }
  }

  lemma {:induction false} GatheredIsCollected(es: seq<Entry>, n: nat)
    requires n <= |es| && forall i | 0 <= i < n :: !Offends(es, i)
    ensures Collects(es, n, Gathered(es, n))
  {
    if n == 0 {
    } else {
      GatheredIsCollected(es, n - 1);
      if es[n - 1].Pair? {
        GatheredKeys(es, n - 1, es[n - 1].id);
        assert !Offends(es, n - 1);
        CollectOne(es, n - 1, Gathered(es, n - 1));
      }
    }
  }

  /** An entry offends iff it is malformed or its app-id has been gathered already. */
  lemma OffendsNow(es: seq<Entry>, k: nat)
    requires k < |es|
    ensures Offends(es, k) <==> es[k].Malformed? || (es[k].Pair? && es[k].id in Gathered(es, k))
  {
    if es[k].Pair? {
      GatheredKeys(es, k, es[k].id);
    }
  }

  method ReadPiece(pieces: seq<string>, k: nat) returns (entry: Entry)
    requires k < |pieces|
    ensures entry == Entries(pieces)[k]
  {
    EntryAt(pieces, k);
    entry := Classify(pieces[k]);
  }

  method ParsePieces(pieces: seq<string>) returns (r: Result<Apps, ParseError>)
    ensures Reads(Entries(pieces), r)
    ensures r.Success? ==> |r.value| == NonBlank(Entries(pieces), |pieces|)
  {
    ghost var es := Entries(pieces);
    var apps: Apps := map[];
    for k := 0 to |pieces|
      invariant forall i | 0 <= i < k :: !Offends(es, i)
      invariant apps == Gathered(es, k)
      invariant |apps| == NonBlank(es, k)
    {
      var entry := ReadPiece(pieces, k);
      OffendsNow(es, k);
      match entry {
        case Blank =>
        case Malformed(text) =>
          assert FirstOffence(es, k);
          return Failure(InvalidEntry(text));
        case Pair(id, addr) =>
          if id in apps {
            assert FirstOffence(es, k);
            return Failure(DuplicateAppID(id));
          }
          apps := apps[id := addr];
      }
    }
    GatheredIsCollected(es, |es|);
    return Success(apps);
  }

  /** ParseAppsConfig, with the early exits and the map filled in place. */
  method ParseAppsConfig(raw: string) returns (r: Result<Apps, ParseError>)
    ensures IsParse(raw, r)
    ensures r.Success? ==> |r.value| == NonBlank(EntriesOf(raw), |EntriesOf(raw)|)
  {
    r := ParsePieces(Split(raw, ','));
  }

  lemma CollectsWithin(es: seq<Entry>, a: Apps, b: Apps)
    requires Collects(es, |es|, a) && Collects(es, |es|, b)
    ensures forall id | id in a :: id in b && b[id] == a[id]
  {
    forall id | id in a ensures id in b && b[id] == a[id] {
      var i :| 0 <= i < |es| && es[i] == Pair(id, a[id]);
    }
  }

  /** No value has two parses. */
  lemma ParseUnique(raw: string, a: Result<Apps, ParseError>, b: Result<Apps, ParseError>)
    requires IsParse(raw, a) && IsParse(raw, b)
    ensures a == b
  {
    var es := EntriesOf(raw);
    if a.Success? && b.Success? {
      CollectsWithin(es, a.value, b.value);
      CollectsWithin(es, b.value, a.value);
      assert a.value == b.value;
    }
  }

  ghost predicate NamesApp(piece: string, id: string) {
    exists addr :: Names(piece, id, addr)
  }

  /** Piece i is malformed, or names an app that an earlier piece names. */
  ghost predicate BadPiece(pieces: seq<string>, i: nat) {
    && i < |pieces|
    && (IsMalformed(pieces[i]) || exists j, id | 0 <= j < i :: NamesApp(pieces[i], id) && NamesApp(pieces[j], id))
  }

  lemma NamesExact(piece: string)
    ensures Classify(piece).Malformed? <==> IsMalformed(piece)
    ensures forall id :: NamesApp(piece, id) <==> Classify(piece).Pair? && Classify(piece).id == id
  {
    ClassifyExact(piece);
    assert Classify(piece).Pair? ==> Names(piece, Classify(piece).id, Classify(piece).addr);
  }

  lemma OffendsIsBad(pieces: seq<string>, i: nat)
    ensures Offends(Entries(pieces), i) <==> BadPiece(pieces, i)
  {
    var es := Entries(pieces);
    if i < |pieces| {
      EntryAt(pieces, i);
      NamesExact(pieces[i]);
      if Repeats(es, i) {
        var j :| 0 <= j < i && es[j].Pair? && es[j].id == es[i].id;
        EntryAt(pieces, j);
        NamesExact(pieces[j]);
        assert NamesApp(pieces[i], es[i].id) && NamesApp(pieces[j], es[i].id);
      }
      if j, id :| 0 <= j < i && NamesApp(pieces[i], id) && NamesApp(pieces[j], id) {
        EntryAt(pieces, j);
        NamesExact(pieces[j]);
        assert es[j].Pair? && es[j].id == es[i].id;
      }
    }
  }

  ghost predicate FirstBad(pieces: seq<string>, i: nat) {
    BadPiece(pieces, i) && forall j | 0 <= j < i :: !BadPiece(pieces, j)
  }

  /** A malformed piece is reported with its trimmed text, a repeated app by its app-id. */
  ghost predicate Explains(piece: string, error: ParseError) {
    match error
    case InvalidEntry(text) => IsMalformed(piece) && text == Trim(piece)
    case DuplicateAppID(id) => !IsMalformed(piece) && NamesApp(piece, id)
  }

  lemma FirstOffenceIsFirstBad(pieces: seq<string>, i: nat)
    requires FirstOffence(Entries(pieces), i)
    ensures FirstBad(pieces, i) && Explains(pieces[i], OffenceAt(Entries(pieces), i))
  {
    OffendsIsBad(pieces, i);
    forall j: nat | j < i ensures !BadPiece(pieces, j) {
      OffendsIsBad(pieces, j);
    }
    EntryAt(pieces, i);
    ClassifyExact(pieces[i]);
    NamesExact(pieces[i]);
  }

  ghost predicate SomeBad(pieces: seq<string>) {
    exists i: nat :: BadPiece(pieces, i)
  }

  ghost predicate FirstBadExplains(pieces: seq<string>, error: ParseError) {
    exists i: nat :: FirstBad(pieces, i) && Explains(pieces[i], error)
  }

  lemma FailureIsBad(pieces: seq<string>, error: ParseError)
    requires Reads(Entries(pieces), Failure(error))
    ensures SomeBad(pieces) && FirstBadExplains(pieces, error)
  {
    var i: nat :| FirstOffence(Entries(pieces), i) && error == OffenceAt(Entries(pieces), i);
    FirstOffenceIsFirstBad(pieces, i);
  }

  lemma SuccessIsNotBad(pieces: seq<string>, apps: Apps)
    requires Reads(Entries(pieces), Success(apps))
    ensures !SomeBad(pieces)
  {
    forall i: nat ensures !BadPiece(pieces, i) {
      OffendsIsBad(pieces, i);
      assert i < |pieces| ==> !Offends(Entries(pieces), i);
    }
  }

  /** Exactness, in terms of the text: parsing fails iff some piece between commas is malformed or
      names an app that an earlier one names. The first such piece gives the error. */
  lemma ParseFailsIff(raw: string, r: Result<Apps, ParseError>)
    requires IsParse(raw, r)
    ensures r.Failure? <==> SomeBad(Split(raw, ','))
    ensures r.Failure? ==> FirstBadExplains(Split(raw, ','), r.error)
  {
    match r
    case Failure(error) => FailureIsBad(Split(raw, ','), error);
    case Success(apps) => SuccessIsNotBad(Split(raw, ','), apps);
  }

  ghost predicate SomePieceNames(pieces: seq<string>, id: string, addr: string) {
    exists i | 0 <= i < |pieces| :: Names(pieces[i], id, addr)
  }

  lemma PieceNames(pieces: seq<string>, apps: Apps, id: string, addr: string)
    requires Reads(Entries(pieces), Success(apps))
    ensures (id in apps && apps[id] == addr) <==> SomePieceNames(pieces, id, addr)
  {
    var es := Entries(pieces);
    if id in apps && apps[id] == addr {
      var i :| 0 <= i < |es| && es[i] == Pair(id, addr);
      EntryAt(pieces, i);
      ClassifyExact(pieces[i]);
      assert Names(pieces[i], id, addr);
    }
    if SomePieceNames(pieces, id, addr) {
      var i :| 0 <= i < |pieces| && Names(pieces[i], id, addr);
      EntryAt(pieces, i);
      ClassifyExact(pieces[i]);
      assert es[i] == Pair(id, addr);
    }
  }

  /** On success the apps are exactly those the pieces name. */
  lemma ParseNames(raw: string, apps: Apps, id: string, addr: string)
    requires IsParse(raw, Success(apps))
    ensures (id in apps && apps[id] == addr) <==> SomePieceNames(Split(raw, ','), id, addr)
  {
    PieceNames(Split(raw, ','), apps, id, addr);
  }

  // ----- the maps that come out of the parser, and printing them -----

  predicate GoodID(id: string) {
    id != "" && Trimmed(id) && ',' !in id && '=' !in id
  }

  predicate GoodAddr(addr: string) {
    addr != "" && Trimmed(addr) && ',' !in addr
  }

  ghost predicate GoodApps(apps: Apps) {
    forall id | id in apps :: GoodID(id) && GoodAddr(apps[id])
  }

  lemma ClassifyResult(piece: string)
    requires ',' !in piece && Classify(piece).Pair?
    ensures GoodID(Classify(piece).id) && GoodAddr(Classify(piece).addr)
  {
    var entry := Trim(piece);
    TrimResult(piece);
    TrimResult(entry[..Index(entry, '=')]);
    TrimResult(entry[Index(entry, '=') + 1..]);
  }

  /** Every successful parse yields non-empty trimmed keys and addresses. */
  lemma ParsedAppsAreGood(raw: string, apps: Apps)
    requires IsParse(raw, Success(apps))
    ensures GoodApps(apps) && "" !in apps
  {
    var pieces := Split(raw, ',');
    var es := Entries(pieces);
    forall id | id in apps ensures GoodID(id) && GoodAddr(apps[id]) {
      var i :| 0 <= i < |es| && es[i] == Pair(id, apps[id]);
      EntryAt(pieces, i);
      assert pieces[i] in pieces;
      ClassifyResult(pieces[i]);
    }
  }

  /** An entry as an operator may write it: padding alone, or a pair padded anywhere. */
  datatype Item =
    | Gap(pad: string)
    | App(p0: string, id: string, p1: string, p2: string, addr: string, p3: string)

  ghost predicate GoodItem(item: Item) {
    match item
    case Gap(pad) => AllSpace(pad)
    case App(p0, id, p1, p2, addr, p3) =>
      AllSpace(p0) && AllSpace(p1) && AllSpace(p2) && AllSpace(p3) && GoodID(id) && GoodAddr(addr)
  }

  function Render(item: Item): string {
    match item
    case Gap(pad) => pad
    case App(p0, id, p1, p2, addr, p3) => p0 + (id + p1 + "=" + p2 + addr) + p3
  }

  function RenderAll(items: seq<Item>): (r: seq<string>)
    ensures |r| == |items|
  {
    if items == [] then [] else [Render(items[0])] + RenderAll(items[1..])
  }

  function Print(items: seq<Item>): string {
    if items == [] then "" else Join(RenderAll(items), ',')
  }

  /** The items write each pair of apps exactly once, in any order, with any gaps. */
  ghost predicate Describes(items: seq<Item>, apps: Apps) {
    && (forall i | 0 <= i < |items| :: GoodItem(items[i]))
    && (forall i | 0 <= i < |items| && items[i].App? :: items[i].id in apps && apps[items[i].id] == items[i].addr)
    && (forall id | id in apps :: exists i | 0 <= i < |items| :: items[i].App? && items[i].id == id)
    && (forall i, j | 0 <= i < j < |items| && items[i].App? && items[j].App? :: items[i].id != items[j].id)
  }

  function Meaning(item: Item): Entry {
    if item.Gap? then Blank else Pair(item.id, item.addr)
  }

  lemma RenderCommaFree(item: Item)
    requires GoodItem(item)
    ensures ',' !in Render(item)
  {
  }

  /** An entry whose trimmed text splits into the given halves at its first '='. */
  lemma ClassifyHalves(piece: string, left: string, right: string)
    requires Trim(piece) == left + "=" + right && '=' !in left
    requires Trim(left) != "" && Trim(right) != ""
    ensures Classify(piece) == Pair(Trim(left), Trim(right))
  {
    var core := left + "=" + right;
    IndexAt(left, '=', right);
    assert core == left + ['='] + right;
    assert core[..|left|] == left && core[|left| + 1..] == right;
  }

  lemma TrimRender(item: Item)
    requires GoodItem(item) && item.App?
    ensures Trim(Render(item)) == (item.id + item.p1) + "=" + (item.p2 + item.addr)
  {
    var core := item.id + item.p1 + "=" + item.p2 + item.addr;
    assert core[0] == item.id[0];
    assert core[|core| - 1] == item.addr[|item.addr| - 1];
    TrimPadded(item.p0, core, item.p3);
    assert core == (item.id + item.p1) + "=" + (item.p2 + item.addr);
  }

  lemma TrimHalves(item: Item)
    requires GoodItem(item) && item.App?
    ensures Trim(item.id + item.p1) == item.id && Trim(item.p2 + item.addr) == item.addr
  {
    assert item.id + item.p1 == "" + item.id + item.p1;
    TrimPadded("", item.id, item.p1);
    assert item.p2 + item.addr == item.p2 + item.addr + "";
    TrimPadded(item.p2, item.addr, "");
  }

  lemma RenderClassifies(item: Item)
    requires GoodItem(item)
    ensures Classify(Render(item)) == Meaning(item)
  {
    if item.Gap? {
      assert item.pad + "" + "" == item.pad;
      TrimPadded(item.pad, "", "");
    } else {
      TrimRender(item);
      TrimHalves(item);
      ClassifyHalves(Render(item), item.id + item.p1, item.p2 + item.addr);
    }
  }

  lemma {:induction false} RenderAt(items: seq<Item>, k: nat)
    requires k < |items|
    ensures RenderAll(items)[k] == Render(items[k])
  {
    if k == 0 {
    } else {
      RenderAt(items[1..], k - 1);
    }
  }

  lemma EntriesOfRender(items: seq<Item>)
    requires forall i | 0 <= i < |items| :: GoodItem(items[i])
    ensures forall i | 0 <= i < |items| :: ',' !in RenderAll(items)[i]
    ensures |Entries(RenderAll(items))| == |items|
    ensures forall i | 0 <= i < |items| :: Entries(RenderAll(items))[i] == Meaning(items[i])
  {
    var pieces := RenderAll(items);
    forall i | 0 <= i < |items| ensures ',' !in pieces[i] && Entries(pieces)[i] == Meaning(items[i]) {
      RenderAt(items, i);
      EntryAt(pieces, i);
      RenderCommaFree(items[i]);
      RenderClassifies(items[i]);
    }
  }

  /** The entries of a printed layout are the meanings of its items. */
  lemma PrintEntries(items: seq<Item>)
    requires forall i | 0 <= i < |items| :: GoodItem(items[i])
    ensures var es := EntriesOf(Print(items));
            if items == [] then es == [Blank]
            else |es| == |items| && forall i | 0 <= i < |items| :: es[i] == Meaning(items[i])
  {
    EntriesOfRender(items);
    if items != [] {
      SplitJoin(RenderAll(items), ',');
    } else {
      assert Split("", ',') == [""];
      assert Classify("").Blank?;
    }
  }

  lemma DescribedIsRead(es: seq<Entry>, items: seq<Item>, apps: Apps)
    requires Describes(items, apps)
    requires if items == [] then es == [Blank]
             else |es| == |items| && forall i | 0 <= i < |items| :: es[i] == Meaning(items[i])
    ensures Reads(es, Success(apps))
  {
    forall id | id in apps ensures exists i | 0 <= i < |es| :: es[i] == Pair(id, apps[id]) {
      var i :| 0 <= i < |items| && items[i].App? && items[i].id == id;
      assert es[i] == Pair(id, apps[id]);
    }
  }

  /** Round trip: printing any layout of a good map and parsing gives the map back. */
  lemma ParsePrint(apps: Apps, items: seq<Item>, r: Result<Apps, ParseError>)
    requires Describes(items, apps)
    requires IsParse(Print(items), r)
    ensures r == Success(apps)
  {
    PrintEntries(items);
    DescribedIsRead(EntriesOf(Print(items)), items, apps);
    ParseUnique(Print(items), r, Success(apps));
  }

  /** The plain layout: app-ids in order, no padding. */
  ghost function Layout(apps: Apps, ids: seq<string>): (items: seq<Item>)
    requires Elements(ids) <= apps.Keys
    ensures |items| == |ids|
    ensures forall i | 0 <= i < |ids| :: ids[i] in apps && items[i] == App("", ids[i], "", "", apps[ids[i]], "")
  {
    if ids == [] then [] else [App("", ids[0], "", "", apps[ids[0]], "")] + Layout(apps, ids[1..])
  }

  lemma LayoutCovers(apps: Apps, ids: seq<string>, items: seq<Item>)
    requires Elements(ids) == apps.Keys && |items| == |ids|
    requires forall i | 0 <= i < |ids| :: items[i].App? && items[i].id == ids[i]
    ensures forall id | id in apps :: exists i | 0 <= i < |items| :: items[i].App? && items[i].id == id
  {
    forall id | id in apps ensures exists i | 0 <= i < |items| :: items[i].App? && items[i].id == id {
      assert id in Elements(ids);
      var i :| 0 <= i < |ids| && ids[i] == id;
      assert items[i].id == id;
    }
  }

  lemma LayoutDescribes(apps: Apps, ids: seq<string>)
    requires GoodApps(apps) && Distinct(ids) && Elements(ids) == apps.Keys
    ensures Describes(Layout(apps, ids), apps)
  {
    var items := Layout(apps, ids);
    forall i | 0 <= i < |items| ensures GoodItem(items[i]) {
      assert ids[i] in apps;
    }
    LayoutCovers(apps, ids, items);
  }

  ghost function PrintApps(apps: Apps): string {
    Print(Layout(apps, InOrder(apps.Keys)))
  }

  /** Reading a value, printing what was read and reading again changes nothing. */
  lemma ParsePrintParse(raw: string, apps: Apps, again: Result<Apps, ParseError>)
    requires IsParse(raw, Success(apps))
    requires IsParse(PrintApps(apps), again)
    ensures again == Success(apps)
  {
    ParsedAppsAreGood(raw, apps);
    LayoutDescribes(apps, InOrder(apps.Keys));
    ParsePrint(apps, Layout(apps, InOrder(apps.Keys)), again);
  }
}
