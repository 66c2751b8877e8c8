/**
 * Merging checkpoints: their memories are laid out one behind the other, their
 * per-CPU sections are renamed apart and their page addresses moved along.
 */
module Aggregator {
  import opened Wrappers
  import opened Text

  type Byte = b: int | 0 <= b < 256

  const PAGE: nat := 4096

  datatype Section = Section(name: string, items: map<string, string>)

  datatype Checkpoint = Checkpoint(sections: seq<Section>, memory: seq<Byte>)

  datatype Error = ValueError | NoSection | NoOption

  // ---------------------------------------------------------------- section names

  predicate StartsWithCpu(s: string) {
    |s| >= 3 && s[0] == 'c' && s[1] == 'p' && s[2] == 'u'
  }

  predicate HasCpu(s: string) {
    StartsWithCpu(s) || (s != [] && HasCpu(s[1..]))
  }

  /** Every "cpu" gets the number behind it. */
  function Rename(s: string, id: string): string {
    if StartsWithCpu(s) then "cpu" + id + Rename(s[3..], id)
    else if s == [] then ""
    else [s[0]] + Rename(s[1..], id)
  }

  /** Removes `digits` characters behind every "cpu". */
  function Restore(s: string, digits: nat): string {
    if StartsWithCpu(s) && |s| >= 3 + digits then "cpu" + Restore(s[3 + digits..], digits)
    else if s == [] then ""
    else [s[0]] + Restore(s[1..], digits)
  }

  /** Renaming changes neither the first three characters nor where the first "cpu" is. */
  lemma {:induction false} RenameFront(s: string, id: string)
    ensures |Rename(s, id)| >= |s|
    ensures forall k :: 0 <= k < 3 && k < |s| ==> Rename(s, id)[k] == s[k]
    ensures |s| < 3 ==> Rename(s, id) == s
  {
    if StartsWithCpu(s) {
      RenameFront(s[3..], id);
    } else if s != [] {
      RenameFront(s[1..], id);
    }
  }

  /** Renaming can be undone when the length of the number is known. */
  lemma {:induction false} RestoreRenamed(s: string, id: string)
    ensures Restore(Rename(s, id), |id|) == s
  {
    var t := Rename(s, id);
    RenameFront(s, id);
    if StartsWithCpu(s) {
      RestoreRenamed(s[3..], id);
      assert t[3 + |id|..] == Rename(s[3..], id);
      assert s == "cpu" + s[3..];
    } else if s != [] {
      RestoreRenamed(s[1..], id);
      assert t[1..] == Rename(s[1..], id);
      assert s == [s[0]] + s[1..];
    }
  }

  /** Equal new names mean equal numbers. */
  lemma {:induction false} RenamedNumber(s: string, id: string, s': string, id': string)
    requires HasCpu(s) && HasCpu(s') && |id| == |id'| && Rename(s, id) == Rename(s', id')
    ensures id == id'
  {
    var t, t' := Rename(s, id), Rename(s', id');
    RenameFront(s, id);
    RenameFront(s', id');
    HasThree(s);
    HasThree(s');
    if StartsWithCpu(s) {
      assert t[3..3 + |id|] == id && t'[3..3 + |id|] == id';
    } else {
      assert t[1..] == Rename(s[1..], id) && t'[1..] == Rename(s'[1..], id');
      RenamedNumber(s[1..], id, s'[1..], id');
    }
  }

  lemma {:induction false} HasThree(s: string)
    requires HasCpu(s)
    ensures |s| >= 3
  {
    if !StartsWithCpu(s) {
      HasThree(s[1..]);
    }
  }

  function ZeroFill(s: string, width: nat): (t: string)
    ensures |t| == if |s| < width then width else |s|
    decreases width - |s|
  {
    if |s| < width then ZeroFill("0" + s, width) else s
  }

  lemma {:induction false} ZeroInFront(s: string)
    requires AllDigits(s)
    ensures AllDigits("0" + s) && DigitsValue("0" + s) == DigitsValue(s)
  {
    var t := "0" + s;
    if s == [] {
      assert t[..0] == "";
    } else {
      assert t[..|t| - 1] == "0" + s[..|s| - 1];
      ZeroInFront(s[..|s| - 1]);
    }
  }

  lemma {:induction false} ZeroFillValue(s: string, width: nat)
    requires AllDigits(s)
    ensures AllDigits(ZeroFill(s, width)) && DigitsValue(ZeroFill(s, width)) == DigitsValue(s)
    decreases width - |s|
  {
    if |s| < width {
      ZeroInFront(s);
      ZeroFillValue("0" + s, width);
    }
  }

  /** The number of checkpoint i among n, all of the same width. */
  function Id(i: nat, n: nat): string
    requires i < n
  {
    ZeroFill(Decimal(i), |Decimal(n - 1)|)
  }

  lemma {:induction false} LongerDecimal(a: nat, b: nat)
    requires a <= b
    ensures |Decimal(a)| <= |Decimal(b)|
  {
    if a >= 10 {
      LongerDecimal(a / 10, b / 10);
    }
  }

  lemma IdsDiffer(i: nat, j: nat, n: nat)
    requires i < n && j < n
    ensures |Id(i, n)| == |Id(j, n)|
    ensures Id(i, n) == Id(j, n) ==> i == j
  {
    LongerDecimal(i, n - 1);
    LongerDecimal(j, n - 1);
    DecimalValue(i);
    DecimalValue(j);
    ZeroFillValue(Decimal(i), |Decimal(n - 1)|);
    ZeroFillValue(Decimal(j), |Decimal(n - 1)|);
  }

  /** The number in digits, in front of it zeros up to the width of the largest. */
  lemma IdIsNumber(i: nat, n: nat)
    requires i < n
    ensures |Id(i, n)| == |Decimal(n - 1)| && AllDigits(Id(i, n)) && DigitsValue(Id(i, n)) == i
  {
    LongerDecimal(i, n - 1);
    DecimalValue(i);
    ZeroFillValue(Decimal(i), |Decimal(n - 1)|);
  }

  /** Renaming keeps all per-CPU sections of all checkpoints apart. */
  lemma RenamingIsInjective(s: string, i: nat, s': string, j: nat, n: nat)
    requires i < n && j < n && HasCpu(s) && HasCpu(s')
    requires Rename(s, Id(i, n)) == Rename(s', Id(j, n))
    ensures s == s' && i == j
  {
    IdsDiffer(i, j, n);
    RenamedNumber(s, Id(i, n), s', Id(j, n));
    RestoreRenamed(s, Id(i, n));
    RestoreRenamed(s', Id(j, n));
  }

  // ---------------------------------------------------------------- memory

  /** What is read of a memory of which so many pages are wanted. */
  function Taken(memory: seq<Byte>, pages: int): (t: seq<Byte>)
    ensures t <= memory
  {
    if pages <= 0 then [] else if pages * PAGE <= |memory| then memory[..pages * PAGE] else memory
  }

  /** A checkpoint's memory and the number of pages in use. */
  datatype Image = Image(memory: seq<Byte>, pages: int) {
    /** All pages in use are in the file. */
    predicate Full() {
      pages * PAGE <= |memory|
    }

    function Bytes(): seq<Byte> {
      Taken(memory, pages)
    }
  }

  /** Pages in use by the first n checkpoints. */
  function PagePtr(images: seq<Image>, n: nat): int
    requires n <= |images|
  {
    if n == 0 then 0 else PagePtr(images, n - 1) + images[n - 1].pages
  }

  /** What is added to the addresses of checkpoint n. */
  function Base(images: seq<Image>, n: nat): int
    requires n <= |images|
  {
    PagePtr(images, n) * PAGE
  }

  /** The first n memories, one behind the other. */
  function Layout(images: seq<Image>, n: nat): seq<Byte>
    requires n <= |images|
  {
    if n == 0 then [] else Layout(images, n - 1) + images[n - 1].Bytes()
  }

  predicate Natural(images: seq<Image>) {
    forall i :: 0 <= i < |images| ==> images[i].pages >= 0
  }

  predicate AllFull(images: seq<Image>, n: nat)
    requires n <= |images|
  {
    forall j :: 0 <= j < n ==> images[j].Full()
  }

  lemma BytesLength(image: Image)
    requires image.pages >= 0
    ensures |image.Bytes()| <= image.pages * PAGE
    ensures |image.Bytes()| == image.pages * PAGE <==> image.Full()
  {
  }

  /** A memory lies where its addresses are moved to iff all memories before it are complete. */
  lemma {:induction false} WindowAtBaseIff(images: seq<Image>, n: nat)
    requires n <= |images| && Natural(images)
    ensures |Layout(images, n)| <= Base(images, n)
    ensures |Layout(images, n)| == Base(images, n) <==> AllFull(images, n)
  {
    if n > 0 {
      WindowAtBaseIff(images, n - 1);
      BytesLength(images[n - 1]);
    }
  }

  lemma {:induction false} LayoutPrefix(images: seq<Image>, i: nat, n: nat)
    requires i <= n <= |images|
    ensures Layout(images, i) <= Layout(images, n)
  {
    if i < n {
      LayoutPrefix(images, i, n - 1);
    }
  }

  /** What checkpoint i held at an address is in the merged memory at the moved address. */
  lemma MovedAddressHolds(images: seq<Image>, i: nat, a: nat, padding: seq<Byte>)
    requires Natural(images) && i < |images| && AllFull(images, i) && a < |images[i].Bytes()|
    ensures var merged := Layout(images, |images|) + padding;
            0 <= a + Base(images, i) < |merged| && merged[a + Base(images, i)] == images[i].memory[a]
  {
    WindowAtBaseIff(images, i);
    LayoutPrefix(images, i + 1, |images|);
    assert Layout(images, i + 1)[a + Base(images, i)] == images[i].Bytes()[a];
  }

  /** The windows of different checkpoints do not meet. */
  lemma {:induction false} WindowsAreDisjoint(images: seq<Image>, i: nat, j: nat)
    requires Natural(images) && i < j <= |images|
    ensures Base(images, i) + images[i].pages * PAGE <= Base(images, j)
  {
    if i + 1 < j {
      WindowsAreDisjoint(images, i, j - 1);
    }
  }

  /** Pages of padding up to the wanted size. */
  function Padding(size: int, wanted: int): nat {
    if size < wanted then (wanted - size + PAGE - 1) / PAGE else 0
  }

  const ZERO_PAGE: seq<Byte> := seq(PAGE, i => 48)

  function ZeroPages(n: nat): seq<Byte> {
    seq(n * PAGE, i => 48)
  }

  /** The merged memory, padded. */
  function MergedMemory(images: seq<Image>, wanted: int): seq<Byte> {
    Layout(images, |images|) + ZeroPages(Padding(Base(images, |images|), wanted))
  }

  function RangeSize(images: seq<Image>, wanted: int): int {
    (PagePtr(images, |images|) + Padding(Base(images, |images|), wanted)) * PAGE
  }

  /** The announced size is the size of the merged memory iff all memories are complete, and it is large enough. */
  lemma RangeSizeIff(images: seq<Image>, wanted: int)
    requires Natural(images)
    ensures |MergedMemory(images, wanted)| == RangeSize(images, wanted) <==> AllFull(images, |images|)
    ensures RangeSize(images, wanted) >= wanted
    ensures RangeSize(images, wanted) == Base(images, |images|) || RangeSize(images, wanted) < wanted + PAGE
  {
    WindowAtBaseIff(images, |images|);
  }

  /** An incomplete memory: the page of the second checkpoint is not where its address is moved to. */
  lemma ShortMemoryMovesTheNext(page: seq<Byte>)
    requires |page| == PAGE
    ensures var images := [Image([], 1), Image(page, 1)];
            Base(images, 1) == PAGE && MergedMemory(images, 0) == page
  {
    var images := [Image([], 1), Image(page, 1)];
    assert PagePtr(images, 1) == 1 && PagePtr(images, 2) == 2;
    assert Layout(images, 1) == [] && Layout(images, 2) == page[..PAGE] == page;
    assert ZeroPages(0) == [];
  }

  // ---------------------------------------------------------------- sections

  function ParseNum(text: string): Result<int, Error> {
    match ParseInt(text)
    case Some(v) => Ok(v)
    case None => Err(ValueError)
  }

  function Lookup(items: map<string, string>, key: string): Result<int, Error> {
    if key in items then ParseNum(items[key]) else Err(NoOption)
  }

  /** The items of the first section with the name. */
  function Find(sections: seq<Section>, name: string): Result<map<string, string>, Error> {
    if sections == [] then Err(NoSection)
    else if sections[0].name == name then Ok(sections[0].items)
    else Find(sections[1..], name)
  }

  function PagesOf(cpt: Checkpoint): Result<int, Error> {
    var items :- Find(cpt.sections, "system");
    Lookup(items, "pagePtr")
  }

  predicate IsFdMap(name: string) {
    |name| >= 17 && name[|name| - 17..|name| - 9] == "workload" && name[|name| - 8..] == "FdMap256"
  }

  function WithPid(items: map<string, string>, name: string, i: nat): map<string, string> {
    if IsFdMap(name) then items["M5_pid" := Number(i)] else items
  }

  /** The items of a per-CPU section of checkpoint i: its page address is moved, a process gets its number. */
  function MoveItems(sec: Section, i: nat, base: int): Result<map<string, string>, Error> {
    if "paddr" in sec.items then
      var paddr :- ParseNum(sec.items["paddr"]);
      Ok(WithPid(sec.items["paddr" := Number(paddr + base)], sec.name, i))
    else
      Ok(WithPid(sec.items, sec.name, i))
  }

  /** The merged sections, and the largest tick. */
  datatype Config = Config(sections: seq<Section>, tick: int)

  function Max(a: int, b: int): int {
    if b > a then b else a
  }

  /** The name a section of checkpoint i, of n, gets in the merged configuration. */
  function NewName(name: string, i: nat, n: nat): Option<string>
    requires i < n
  {
    if HasCpu(name) then Some(Rename(name, Id(i, n)))
    else if name == "system" || name == "Globals" then None
    else if i == n - 1 then Some(name)
    else None
  }

  function AddSection(cfg: Config, sec: Section, i: nat, n: nat, base: int): Result<Config, Error>
    requires i < n
  {
    if HasCpu(sec.name) then
      var items :- MoveItems(sec, i, base);
      Ok(cfg.(sections := cfg.sections + [Section(Rename(sec.name, Id(i, n)), items)]))
    else if sec.name == "system" then Ok(cfg)
    else if sec.name == "Globals" then
      var tick :- Lookup(sec.items, "curTick");
      Ok(cfg.(tick := Max(cfg.tick, tick)))
    else if i == n - 1 then Ok(cfg.(sections := cfg.sections + [sec]))
    else Ok(cfg)
  }

  /** Adds the first k sections of checkpoint i. */
  function AddFirst(cfg: Config, sections: seq<Section>, k: nat, i: nat, n: nat, base: int): Result<Config, Error>
    requires k <= |sections| && i < n
  {
    if k == 0 then Ok(cfg)
    else
      var before :- AddFirst(cfg, sections, k - 1, i, n, base);
      AddSection(before, sections[k - 1], i, n, base)
  }

  datatype Merge = Merge(config: Config, images: seq<Image>)

  function MergeFirst(cpts: seq<Checkpoint>, k: nat): (r: Result<Merge, Error>)
    requires k <= |cpts|
    ensures r.Ok? ==> |r.value.images| == k
  {
    if k == 0 then Ok(Merge(Config([], 0), []))
    else
      var m :- MergeFirst(cpts, k - 1);
      var cpt := cpts[k - 1];
      var cfg :- AddFirst(m.config, cpt.sections, |cpt.sections|, k - 1, |cpts|, Base(m.images, k - 1));
      var pages :- PagesOf(cpt);
      Ok(Merge(cfg, m.images + [Image(cpt.memory, pages)]))
  }

  lemma {:induction false} PagePtrPrefix(images: seq<Image>, more: seq<Image>, n: nat)
    requires n <= |images|
    ensures PagePtr(images + more, n) == PagePtr(images, n)
    ensures Layout(images + more, n) == Layout(images, n)
  {
    if n > 0 {
      PagePtrPrefix(images, more, n - 1);
    }
  }

  lemma {:induction false} ImagesStay(cpts: seq<Checkpoint>, i: nat, k: nat)
    requires i <= k <= |cpts| && MergeFirst(cpts, k).Ok?
    ensures MergeFirst(cpts, i).Ok?
    ensures MergeFirst(cpts, i).value.images <= MergeFirst(cpts, k).value.images
  {
    if i < k {
      ImagesStay(cpts, i, k - 1);
    }
  }

  /** The images are those of the checkpoints, page counts read from their configuration. */
  lemma ImageOf(cpts: seq<Checkpoint>, i: nat, k: nat)
    requires i < k <= |cpts| && MergeFirst(cpts, k).Ok?
    ensures PagesOf(cpts[i]).Ok?
    ensures MergeFirst(cpts, k).value.images[i] == Image(cpts[i].memory, PagesOf(cpts[i]).value)
  {
    ImagesStay(cpts, i + 1, k);
    LastImage(cpts, i);
  }

  lemma LastImage(cpts: seq<Checkpoint>, i: nat)
    requires i < |cpts| && MergeFirst(cpts, i + 1).Ok?
    ensures PagesOf(cpts[i]).Ok?
    ensures MergeFirst(cpts, i + 1).value.images[i] == Image(cpts[i].memory, PagesOf(cpts[i]).value)
  {
  }

  lemma BaseStays(cpts: seq<Checkpoint>, i: nat, k: nat)
    requires i <= k <= |cpts| && MergeFirst(cpts, k).Ok?
    ensures MergeFirst(cpts, i).Ok?
    ensures Base(MergeFirst(cpts, i).value.images, i) == Base(MergeFirst(cpts, k).value.images, i)
  {
    ImagesStay(cpts, i, k);
    var a, b := MergeFirst(cpts, i).value.images, MergeFirst(cpts, k).value.images;
    assert b == a + b[i..];
    PagePtrPrefix(a, b[i..], i);
  }

  // ---------------------------------------------------------------- sections are kept

  lemma {:induction false} AddFirstKeeps(cfg: Config, sections: seq<Section>, j: nat, k: nat, i: nat, n: nat, base: int)
    requires j <= k <= |sections| && i < n && AddFirst(cfg, sections, k, i, n, base).Ok?
    ensures AddFirst(cfg, sections, j, i, n, base).Ok?
    ensures AddFirst(cfg, sections, j, i, n, base).value.sections <= AddFirst(cfg, sections, k, i, n, base).value.sections
    ensures AddFirst(cfg, sections, j, i, n, base).value.tick <= AddFirst(cfg, sections, k, i, n, base).value.tick
  {
    if j < k {
      AddFirstKeeps(cfg, sections, j, k - 1, i, n, base);
    }
  }

  lemma {:induction false} MergeKeeps(cpts: seq<Checkpoint>, i: nat, k: nat)
    requires i <= k <= |cpts| && MergeFirst(cpts, k).Ok?
    ensures MergeFirst(cpts, i).Ok?
    ensures MergeFirst(cpts, i).value.config.sections <= MergeFirst(cpts, k).value.config.sections
    ensures MergeFirst(cpts, i).value.config.tick <= MergeFirst(cpts, k).value.config.tick
  {
    if i < k {
      MergeKeeps(cpts, i, k - 1);
      var m, cpt := MergeFirst(cpts, k - 1).value, cpts[k - 1];
      AddFirstKeeps(m.config, cpt.sections, 0, |cpt.sections|, k - 1, |cpts|, Base(m.images, k - 1));
    }
  }

  /** What was added for section p of checkpoint i is in the merged configuration. */
  lemma AddedSection(cpts: seq<Checkpoint>, i: nat, p: nat) returns (before: Config, after: Config)
    requires i < |cpts| && p < |cpts[i].sections| && MergeFirst(cpts, |cpts|).Ok?
    ensures AddSection(before, cpts[i].sections[p], i, |cpts|, Base(MergeFirst(cpts, |cpts|).value.images, i)) == Ok(after)
    ensures after.sections <= MergeFirst(cpts, |cpts|).value.config.sections
    ensures after.tick <= MergeFirst(cpts, |cpts|).value.config.tick
  {
    var n, sections := |cpts|, cpts[i].sections;
    MergeKeeps(cpts, i + 1, n);
    BaseStays(cpts, i, n);
    var m := MergeFirst(cpts, i).value;
    var base := Base(m.images, i);
    AddFirstKeeps(m.config, sections, p + 1, |sections|, i, n, base);
    before := AddFirst(m.config, sections, p, i, n, base).value;
    after := AddFirst(m.config, sections, p + 1, i, n, base).value;
    assert after.sections <= AddFirst(m.config, sections, |sections|, i, n, base).value.sections
                          == MergeFirst(cpts, i + 1).value.config.sections;
  }

  /** Every per-CPU section of every checkpoint is there, renamed and with its page address moved. */
  lemma CpuSectionsAreMoved(cpts: seq<Checkpoint>, i: nat, p: nat)
    requires i < |cpts| && p < |cpts[i].sections| && HasCpu(cpts[i].sections[p].name)
    requires MergeFirst(cpts, |cpts|).Ok?
    ensures var m, sec := MergeFirst(cpts, |cpts|).value, cpts[i].sections[p];
            && MoveItems(sec, i, Base(m.images, i)).Ok?
            && Section(Rename(sec.name, Id(i, |cpts|)), MoveItems(sec, i, Base(m.images, i)).value) in m.config.sections
  {
    var before, after := AddedSection(cpts, i, p);
    var m, sec := MergeFirst(cpts, |cpts|).value, cpts[i].sections[p];
    var new_ := Section(Rename(sec.name, Id(i, |cpts|)), MoveItems(sec, i, Base(m.images, i)).value);
    assert after.sections[|before.sections|] == new_;
    assert m.config.sections[|before.sections|] == new_;
  }

  /** The merged tick is no earlier than that of any checkpoint. */
  lemma TicksAreCovered(cpts: seq<Checkpoint>, i: nat, p: nat)
    requires i < |cpts| && p < |cpts[i].sections| && cpts[i].sections[p].name == "Globals"
    requires MergeFirst(cpts, |cpts|).Ok?
    ensures Lookup(cpts[i].sections[p].items, "curTick").Ok?
    ensures Lookup(cpts[i].sections[p].items, "curTick").value <= MergeFirst(cpts, |cpts|).value.config.tick
  {
    NoCpu();
    var before, after := AddedSection(cpts, i, p);
  }

  lemma NoCpu()
    ensures !HasCpu("system") && !HasCpu("Globals")
  {
    NoCpuIn("system");
    NoCpuIn("Globals");
  }

  lemma {:induction false} NoCpuIn(s: string)
    requires forall k :: 0 <= k < |s| ==> s[k] != 'c'
    ensures !HasCpu(s)
  {
    if s != [] {
      NoCpuIn(s[1..]);
    }
  }

  lemma {:induction false} AddFirstTick(cfg: Config, sections: seq<Section>, k: nat, i: nat, n: nat, base: int, bound: int)
    requires k <= |sections| && i < n && AddFirst(cfg, sections, k, i, n, base).Ok? && cfg.tick <= bound
    requires forall p :: 0 <= p < k && sections[p].name == "Globals" && Lookup(sections[p].items, "curTick").Ok?
               ==> Lookup(sections[p].items, "curTick").value <= bound
    ensures AddFirst(cfg, sections, k, i, n, base).value.tick <= bound
  {
    if k > 0 {
      AddFirstTick(cfg, sections, k - 1, i, n, base, bound);
    }
  }

  predicate TicksAtMost(sections: seq<Section>, bound: int) {
    forall p :: 0 <= p < |sections| && sections[p].name == "Globals" && Lookup(sections[p].items, "curTick").Ok?
      ==> Lookup(sections[p].items, "curTick").value <= bound
  }

  /** The merged tick is the least such: it is at most any bound on the ticks. */
  lemma {:induction false} TickIsLeast(cpts: seq<Checkpoint>, k: nat, bound: int)
    requires k <= |cpts| && MergeFirst(cpts, k).Ok? && bound >= 0
    requires forall i :: 0 <= i < k ==> TicksAtMost(cpts[i].sections, bound)
    ensures MergeFirst(cpts, k).value.config.tick <= bound
  {
    if k > 0 {
      TickIsLeast(cpts, k - 1, bound);
      var m, cpt := MergeFirst(cpts, k - 1).value, cpts[k - 1];
      assert TicksAtMost(cpt.sections, bound);
      AddFirstTick(m.config, cpt.sections, |cpt.sections|, k - 1, |cpts|, Base(m.images, k - 1), bound);
    }
  }

  /**
   * The page address of a section, moved by the merge, finds in the merged memory
   * what the checkpoint's own memory held at the address before.
   */
  lemma MovedPageHolds(cpts: seq<Checkpoint>, m: Merge, i: nat, p: nat, addr: nat, wanted: int)
    returns (q: nat, moved: nat)
    requires MergeFirst(cpts, |cpts|) == Ok(m) && i < |cpts| && p < |cpts[i].sections|
    requires HasCpu(cpts[i].sections[p].name)
    requires "paddr" in cpts[i].sections[p].items && ParseNum(cpts[i].sections[p].items["paddr"]) == Ok(addr)
    requires Natural(m.images) && AllFull(m.images, i)
    requires addr < m.images[i].pages * PAGE && addr < |cpts[i].memory|
    ensures q < |m.config.sections| && m.config.sections[q].name == Rename(cpts[i].sections[p].name, Id(i, |cpts|))
    ensures "paddr" in m.config.sections[q].items && m.config.sections[q].items["paddr"] == Number(moved)
    ensures moved < |MergedMemory(m.images, wanted)|
    ensures MergedMemory(m.images, wanted)[moved] == cpts[i].memory[addr]
  {
    var base := Base(m.images, i);
    ImageOf(cpts, i, |cpts|);
    PageInWindow(m.images, i, addr, wanted);
    moved := addr + base;
    q := MovedSection(cpts, m, i, p);
    MovedPaddr(cpts[i].sections[p], i, base, addr);
  }

  lemma PageInWindow(images: seq<Image>, i: nat, addr: nat, wanted: int)
    requires Natural(images) && i < |images| && AllFull(images, i)
    requires addr < images[i].pages * PAGE && addr < |images[i].memory|
    ensures 0 <= addr + Base(images, i) < |MergedMemory(images, wanted)|
    ensures MergedMemory(images, wanted)[addr + Base(images, i)] == images[i].memory[addr]
  {
    MovedAddressHolds(images, i, addr, ZeroPages(Padding(Base(images, |images|), wanted)));
  }

  lemma MovedSection(cpts: seq<Checkpoint>, m: Merge, i: nat, p: nat) returns (q: nat)
    requires MergeFirst(cpts, |cpts|) == Ok(m) && i < |cpts| && p < |cpts[i].sections|
    requires HasCpu(cpts[i].sections[p].name)
    ensures MoveItems(cpts[i].sections[p], i, Base(m.images, i)).Ok?
    ensures q < |m.config.sections| && m.config.sections[q].name == Rename(cpts[i].sections[p].name, Id(i, |cpts|))
    ensures m.config.sections[q].items == MoveItems(cpts[i].sections[p], i, Base(m.images, i)).value
  {
    CpuSectionsAreMoved(cpts, i, p);
    var sec := cpts[i].sections[p];
    q :| 0 <= q < |m.config.sections| && m.config.sections[q]
      == Section(Rename(sec.name, Id(i, |cpts|)), MoveItems(sec, i, Base(m.images, i)).value);
  }

  lemma MovedPaddr(sec: Section, i: nat, base: int, addr: int)
    requires "paddr" in sec.items && ParseNum(sec.items["paddr"]) == Ok(addr)
    ensures MoveItems(sec, i, base).Ok?
    ensures "paddr" in MoveItems(sec, i, base).value && MoveItems(sec, i, base).value["paddr"] == Number(addr + base)
  {
    assert "paddr"[0] != "M5_pid"[0];
  }

  // ---------------------------------------------------------------- names are distinct

  /** Section `sec` of checkpoint `cpt`. */
  datatype Pos = Pos(cpt: nat, sec: nat) {
    predicate Before(other: Pos) {
      cpt < other.cpt || (cpt == other.cpt && sec < other.sec)
    }
  }

  predicate IsTrace(cpts: seq<Checkpoint>, sec: Section, from: Pos) {
    && from.cpt < |cpts| && from.sec < |cpts[from.cpt].sections|
    && NewName(cpts[from.cpt].sections[from.sec].name, from.cpt, |cpts|) == Some(sec.name)
    && (!HasCpu(cpts[from.cpt].sections[from.sec].name) ==> sec == cpts[from.cpt].sections[from.sec])
  }

  /** Where the merged sections come from: their order is that of the checkpoints and of their sections. */
  predicate Traced(cpts: seq<Checkpoint>, sections: seq<Section>, from: seq<Pos>, end: Pos) {
    && |from| == |sections|
    && (forall q :: 0 <= q < |from| ==> IsTrace(cpts, sections[q], from[q]) && from[q].Before(end))
    && (forall q, r :: 0 <= q < r < |from| ==> from[q].Before(from[r]))
  }

  lemma TracedLater(cpts: seq<Checkpoint>, sections: seq<Section>, from: seq<Pos>, end: Pos, later: Pos)
    requires Traced(cpts, sections, from, end) && end.Before(later)
    ensures Traced(cpts, sections, from, later)
  {
  }

  lemma TracedAppend(cpts: seq<Checkpoint>, sections: seq<Section>, from: seq<Pos>, sec: Section, end: Pos, later: Pos)
    requires Traced(cpts, sections, from, end) && IsTrace(cpts, sec, end) && end.Before(later)
    ensures Traced(cpts, sections + [sec], from + [end], later)
  {
  }

  lemma TraceSection(cpts: seq<Checkpoint>, cfg: Config, from: seq<Pos>, i: nat, p: nat, base: int) returns (from': seq<Pos>)
    requires i < |cpts| && p < |cpts[i].sections| && Traced(cpts, cfg.sections, from, Pos(i, p))
    requires AddSection(cfg, cpts[i].sections[p], i, |cpts|, base).Ok?
    ensures Traced(cpts, AddSection(cfg, cpts[i].sections[p], i, |cpts|, base).value.sections, from', Pos(i, p + 1))
  {
    var sec, n := cpts[i].sections[p], |cpts|;
    var after := AddSection(cfg, sec, i, n, base).value;
    if NewName(sec.name, i, n).Some? {
      var added := after.sections[|cfg.sections|];
      assert after.sections == cfg.sections + [added] && IsTrace(cpts, added, Pos(i, p));
      TracedAppend(cpts, cfg.sections, from, added, Pos(i, p), Pos(i, p + 1));
      from' := from + [Pos(i, p)];
    } else {
      TracedLater(cpts, cfg.sections, from, Pos(i, p), Pos(i, p + 1));
      from' := from;
    }
  }

  lemma {:induction false} TraceFirst(cpts: seq<Checkpoint>, cfg: Config, from: seq<Pos>, i: nat, k: nat, base: int)
    returns (from': seq<Pos>)
    requires i < |cpts| && k <= |cpts[i].sections| && Traced(cpts, cfg.sections, from, Pos(i, 0))
    requires AddFirst(cfg, cpts[i].sections, k, i, |cpts|, base).Ok?
    ensures Traced(cpts, AddFirst(cfg, cpts[i].sections, k, i, |cpts|, base).value.sections, from', Pos(i, k))
  {
    from' := from;
    if k > 0 {
      from' := TraceFirst(cpts, cfg, from, i, k - 1, base);
      from' := TraceSection(cpts, AddFirst(cfg, cpts[i].sections, k - 1, i, |cpts|, base).value, from', i, k - 1, base);
    }
  }

  lemma {:induction false} TraceMerge(cpts: seq<Checkpoint>, k: nat) returns (from: seq<Pos>)
    requires k <= |cpts| && MergeFirst(cpts, k).Ok?
    ensures Traced(cpts, MergeFirst(cpts, k).value.config.sections, from, Pos(k, 0))
  {
    from := [];
    if k > 0 {
      from := TraceMerge(cpts, k - 1);
      var m, cpt := MergeFirst(cpts, k - 1).value, cpts[k - 1];
      from := TraceFirst(cpts, m.config, from, k - 1, |cpt.sections|, Base(m.images, k - 1));
      TracedLater(cpts, MergeFirst(cpts, k).value.config.sections, from, Pos(k - 1, |cpt.sections|), Pos(k, 0));
    }
  }

  predicate DistinctNames(sections: seq<Section>) {
    forall q, r :: 0 <= q < r < |sections| ==> sections[q].name != sections[r].name
  }

  lemma {:induction false} RenamedHasCpu(s: string, id: string)
    requires HasCpu(s)
    ensures HasCpu(Rename(s, id))
  {
    if !StartsWithCpu(s) {
      RenamedHasCpu(s[1..], id);
      assert Rename(s, id)[1..] == Rename(s[1..], id);
    }
  }

  lemma NewNamesDiffer(s: string, i: nat, s': string, j: nat, n: nat)
    requires i < n && j < n && NewName(s, i, n).Some? && NewName(s, i, n) == NewName(s', j, n)
    ensures s == s' && i == j
  {
    if HasCpu(s) {
      RenamedHasCpu(s, Id(i, n));
    }
    if HasCpu(s') {
      RenamedHasCpu(s', Id(j, n));
    }
    if HasCpu(s) && HasCpu(s') {
      RenamingIsInjective(s, i, s', j, n);
    }
  }

  lemma TracedDiffer(cpts: seq<Checkpoint>, a: Section, from: Pos, b: Section, from': Pos)
    requires IsTrace(cpts, a, from) && IsTrace(cpts, b, from') && from.Before(from')
    requires DistinctNames(cpts[from.cpt].sections)
    ensures a.name != b.name
  {
    if a.name == b.name {
      NewNamesDiffer(cpts[from.cpt].sections[from.sec].name, from.cpt,
                     cpts[from'.cpt].sections[from'.sec].name, from'.cpt, |cpts|);
    }
  }

  /** No two sections of the merged configuration have the same name. */
  lemma MergedNamesAreDistinct(cpts: seq<Checkpoint>)
    requires MergeFirst(cpts, |cpts|).Ok?
    requires forall i :: 0 <= i < |cpts| ==> DistinctNames(cpts[i].sections)
    ensures DistinctNames(MergeFirst(cpts, |cpts|).value.config.sections)
  {
    var sections := MergeFirst(cpts, |cpts|).value.config.sections;
    var from := TraceMerge(cpts, |cpts|);
    forall q, r | 0 <= q < r < |sections| ensures sections[q].name != sections[r].name {
      assert IsTrace(cpts, sections[q], from[q]) && IsTrace(cpts, sections[r], from[r]);
      TracedDiffer(cpts, sections[q], from[q], sections[r], from[r]);
    }
  }

  lemma NoReservedNames(cpts: seq<Checkpoint>, q: nat)
    requires MergeFirst(cpts, |cpts|).Ok? && q < |MergeFirst(cpts, |cpts|).value.config.sections|
    ensures var name := MergeFirst(cpts, |cpts|).value.config.sections[q].name; name != "system" && name != "Globals"
  {
    var sections := MergeFirst(cpts, |cpts|).value.config.sections;
    var from := TraceMerge(cpts, |cpts|);
    assert IsTrace(cpts, sections[q], from[q]);
    var name := cpts[from[q].cpt].sections[from[q].sec].name;
    NoCpu();
    if HasCpu(name) {
      RenamedHasCpu(name, Id(from[q].cpt, |cpts|));
    }
  }

  // ---------------------------------------------------------------- the output

  const STORE := "system.physmem.store0"

  function SetItem(sections: seq<Section>, name: string, key: string, value: string): (r: Result<seq<Section>, Error>)
    ensures r.Ok? ==> |r.value| == |sections|
    ensures r.Ok? ==> forall q :: 0 <= q < |sections| ==> r.value[q].name == sections[q].name
  {
    if sections == [] then Err(NoSection)
    else if sections[0].name == name then
      Ok([Section(name, sections[0].items[key := value])] + sections[1..])
    else
      var rest :- SetItem(sections[1..], name, key, value);
      Ok([sections[0]] + rest)
  }

  datatype Merged = Merged(sections: seq<Section>, memory: seq<Byte>)

  function SystemSection(pages: int, n: nat): Section {
    Section("system", map["pagePtr" := Number(pages), "nextPID" := Number(n)])
  }

  function GlobalsSection(tick: int): Section {
    Section("Globals", map["curTick" := Number(tick)])
  }

  /** The configuration of n merged checkpoints that use so many pages, with the size of the padded memory. */
  function Complete(config: Config, pages: int, n: nat, rangeSize: int): Result<seq<Section>, Error> {
    var sections :- SetItem(config.sections + [SystemSection(pages, n)], STORE, "range_size", Number(rangeSize));
    Ok(sections + [GlobalsSection(config.tick)])
  }

  function Aggregate(cpts: seq<Checkpoint>, wanted: int): Result<Merged, Error> {
    var m :- MergeFirst(cpts, |cpts|);
    var sections :- Complete(m.config, PagePtr(m.images, |m.images|), |cpts|, RangeSize(m.images, wanted));
    Ok(Merged(sections, MergedMemory(m.images, wanted)))
  }

  lemma DistinctAppend(sections: seq<Section>, sec: Section)
    requires DistinctNames(sections) && forall q :: 0 <= q < |sections| ==> sections[q].name != sec.name
    ensures DistinctNames(sections + [sec])
  {
  }

  /** The merged checkpoint can be read: no section name occurs twice. */
  lemma OutputNamesAreDistinct(cpts: seq<Checkpoint>, wanted: int)
    requires Aggregate(cpts, wanted).Ok?
    requires forall i :: 0 <= i < |cpts| ==> DistinctNames(cpts[i].sections)
    ensures DistinctNames(Aggregate(cpts, wanted).value.sections)
  {
    var m := MergeFirst(cpts, |cpts|).value;
    var a, system := m.config.sections, SystemSection(PagePtr(m.images, |m.images|), |cpts|);
    MergedNamesAreDistinct(cpts);
    forall q | 0 <= q < |a| ensures a[q].name != "system" && a[q].name != "Globals" {
      NoReservedNames(cpts, q);
    }
    DistinctAppend(a, system);
    var b := SetItem(a + [system], STORE, "range_size", Number(RangeSize(m.images, wanted))).value;
    assert DistinctNames(b);
    assert "system"[0] != "Globals"[0];
    forall q | 0 <= q < |b| ensures b[q].name != "Globals" {
      assert b[q].name == (a + [system])[q].name;
    }
    DistinctAppend(b, GlobalsSection(m.config.tick));
  }

  // ---------------------------------------------------------------- reading the output back

  /** The number that an option of a section holds. */
  ghost function Read(sections: seq<Section>, name: string, key: string): Result<int, Error> {
    var items :- Find(sections, name);
    Lookup(items, key)
  }

  predicate HasName(sections: seq<Section>, name: string) {
    exists q :: 0 <= q < |sections| && sections[q].name == name
  }

  lemma {:induction false} FindIff(sections: seq<Section>, name: string)
    ensures Find(sections, name).Ok? <==> HasName(sections, name)
  {
    if sections != [] {
      FindIff(sections[1..], name);
      if q :| 0 <= q < |sections| && sections[q].name == name {
        assert q > 0 ==> sections[1..][q - 1].name == name;
      }
      if q :| 0 <= q < |sections[1..]| && sections[1..][q].name == name {
        assert sections[q + 1].name == name;
      }
    }
  }

  lemma {:induction false} FindIn(a: seq<Section>, b: seq<Section>, name: string)
    ensures Find(a + b, name) == if Find(a, name).Ok? then Find(a, name) else Find(b, name)
  {
    if a == [] {
      assert a + b == b;
    } else {
      FindIn(a[1..], b, name);
      assert (a + b)[0] == a[0] && (a + b)[1..] == a[1..] + b;
    }
  }

  /** Setting an option changes that option of the first section with the name, and nothing else. */
  lemma {:induction false} SetItemMeans(sections: seq<Section>, name: string, key: string, value: string, other: string)
    ensures SetItem(sections, name, key, value).Ok? <==> HasName(sections, name)
    ensures SetItem(sections, name, key, value).Ok? ==>
              var set_ := SetItem(sections, name, key, value).value;
              && Find(sections, name).Ok? && Find(set_, name) == Ok(Find(sections, name).value[key := value])
              && (other != name ==> Find(set_, other) == Find(sections, other))
              && forall q | 0 <= q < |sections| && sections[q].name != name :: set_[q] == sections[q]
  {
    if sections != [] {
      SetItemMeans(sections[1..], name, key, value, other);
      FindIff(sections, name);
      FindIff(sections[1..], name);
      if SetItem(sections, name, key, value).Ok? && sections[0].name != name {
        var set_, rest := SetItem(sections, name, key, value).value, SetItem(sections[1..], name, key, value).value;
        assert set_[1..] == rest;
        forall q | 0 <= q < |sections| && sections[q].name != name ensures set_[q] == sections[q] {
          if q > 0 { assert set_[q] == rest[q - 1] && sections[q] == sections[1..][q - 1]; }
        }
      }
    }
  }

  lemma NumberReads(items: map<string, string>, key: string, n: int)
    requires key in items && items[key] == Number(n)
    ensures Lookup(items, key) == Ok(n)
  {
    ParseNumber(n);
  }

  lemma SystemReads(pages: int, n: nat)
    ensures Lookup(SystemSection(pages, n).items, "pagePtr") == Ok(pages)
    ensures Lookup(SystemSection(pages, n).items, "nextPID") == Ok(n)
  {
    assert "pagePtr"[0] != "nextPID"[0];
    NumberReads(SystemSection(pages, n).items, "pagePtr", pages);
    NumberReads(SystemSection(pages, n).items, "nextPID", n);
  }

  lemma DistinctReserved()
    ensures "system" != STORE && "Globals" != STORE && "system" != "Globals"
  {
    assert |"system"| != |STORE| && |"Globals"| != |STORE| && |"system"| != |"Globals"|;
  }

  /** What the completed configuration says, given that of the merge. */
  lemma CompleteReads(config: Config, pages: int, n: nat, rangeSize: int)
    requires !HasName(config.sections, "system") && !HasName(config.sections, "Globals")
    requires Complete(config, pages, n, rangeSize).Ok?
    ensures var out := Complete(config, pages, n, rangeSize).value;
            && Read(out, "system", "pagePtr") == Ok(pages) && Read(out, "system", "nextPID") == Ok(n)
            && Read(out, STORE, "range_size") == Ok(rangeSize) && Read(out, "Globals", "curTick") == Ok(config.tick)
  {
    var system, globals := SystemSection(pages, n), GlobalsSection(config.tick);
    var sections := config.sections + [system];
    var set_ := SetItem(sections, STORE, "range_size", Number(rangeSize)).value;
    DistinctReserved();
    SetItemMeans(sections, STORE, "range_size", Number(rangeSize), "system");
    SetItemMeans(sections, STORE, "range_size", Number(rangeSize), "Globals");
    FindIff(config.sections, "system");
    FindIff(config.sections, "Globals");
    FindIn(config.sections, [system], "system");
    FindIn(config.sections, [system], "Globals");
    FindIn(set_, [globals], "system");
    FindIn(set_, [globals], STORE);
    FindIn(set_, [globals], "Globals");
    SystemReads(pages, n);
    NumberReads(Find(set_, STORE).value, "range_size", rangeSize);
    NumberReads(globals.items, "curTick", config.tick);
  }

  /** Pages in use by the first k checkpoints, as their configurations say. */
  ghost function SumPages(cpts: seq<Checkpoint>, k: nat): int
    requires k <= |cpts|
  {
    if k == 0 then 0
    else
      var pages := Read(cpts[k - 1].sections, "system", "pagePtr");
      SumPages(cpts, k - 1) + (if pages.Ok? then pages.value else 0)
  }

  lemma {:induction false} PagePtrIsSum(cpts: seq<Checkpoint>, images: seq<Image>, k: nat)
    requires k <= |cpts| == |images|
    requires forall i | 0 <= i < |cpts| ::
               PagesOf(cpts[i]).Ok? && images[i] == Image(cpts[i].memory, PagesOf(cpts[i]).value)
    ensures PagePtr(images, k) == SumPages(cpts, k)
  {
    if k > 0 {
      PagePtrIsSum(cpts, images, k - 1);
    }
  }

  /** A process's table of open files. */
  ghost predicate IsFileTable(name: string) {
    exists front: string, c: char :: name == front + "workload" + [c] + "FdMap256"
  }

  lemma FileTableIff(name: string)
    ensures IsFdMap(name) <==> IsFileTable(name)
  {
    if IsFdMap(name) {
      var n := |name|;
      assert name == name[..n - 17] + name[n - 17..n - 9] + [name[n - 9]] + name[n - 8..];
      assert name == name[..n - 17] + "workload" + [name[n - 9]] + "FdMap256";
    }
    if front: string, c: char :| name == front + "workload" + [c] + "FdMap256" {
      var n := |name|;
      assert n == |front| + 17;
      assert name[n - 17..n - 9] == "workload" && name[n - 8..] == "FdMap256";
    }
  }

  /** Section `to` is section `from` of checkpoint i: its page address is moved by `shift`, the file table of a
      process gets the number of the checkpoint, and every other option is as it was. */
  ghost predicate IsMoved(from: Section, to: Section, i: nat, shift: int) {
    && to.items.Keys == from.items.Keys + (if IsFileTable(from.name) then {"M5_pid"} else {})
    && (forall k | k in from.items && k != "paddr" && k != "M5_pid" :: to.items[k] == from.items[k])
    && (IsFileTable(from.name) ==> Lookup(to.items, "M5_pid") == Ok(i))
    && (!IsFileTable(from.name) && "M5_pid" in from.items ==> to.items["M5_pid"] == from.items["M5_pid"])
    && ("paddr" in from.items ==> && Lookup(from.items, "paddr").Ok?
                                  && Lookup(to.items, "paddr") == Ok(Lookup(from.items, "paddr").value + shift))
  }

  lemma MovedItemsAre(sec: Section, i: nat, shift: int, name: string)
    requires MoveItems(sec, i, shift).Ok?
    ensures IsMoved(sec, Section(name, MoveItems(sec, i, shift).value), i, shift)
  {
    assert "paddr"[0] != "M5_pid"[0];
    FileTableIff(sec.name);
    var items := MoveItems(sec, i, shift).value;
    if "paddr" in sec.items {
      NumberReads(items, "paddr", ParseNum(sec.items["paddr"]).value + shift);
    }
    if IsFdMap(sec.name) {
      NumberReads(items, "M5_pid", i);
    }
  }

  /** The section is neither per CPU nor one that the merge writes itself. */
  predicate IsPlain(name: string) {
    !HasCpu(name) && name != "system" && name != "Globals"
  }

  ghost predicate HasAllPages(cpt: Checkpoint) {
    var pages := Read(cpt.sections, "system", "pagePtr");
    pages.Ok? && pages.value * PAGE <= |cpt.memory|
  }

  ghost predicate NaturalPages(cpts: seq<Checkpoint>) {
    forall i | 0 <= i < |cpts| :: Read(cpts[i].sections, "system", "pagePtr").Ok? &&
                                  Read(cpts[i].sections, "system", "pagePtr").value >= 0
  }

  /** The numbers of a merged checkpoint. */
  ghost predicate CountsRight(cpts: seq<Checkpoint>, wanted: int, out: Merged) {
    var size := Read(out.sections, STORE, "range_size");
    && Read(out.sections, "system", "pagePtr") == Ok(SumPages(cpts, |cpts|))
    && Read(out.sections, "system", "nextPID") == Ok(|cpts|)
    && size.Ok? && size.value >= wanted
    && (NaturalPages(cpts) ==> (size.value == |out.memory| <==> forall i | 0 <= i < |cpts| :: HasAllPages(cpts[i])))
  }

  /** The tick is the least natural number that is no earlier than that of any checkpoint. */
  ghost predicate TickRight(cpts: seq<Checkpoint>, out: Merged) {
    var tick := Read(out.sections, "Globals", "curTick");
    && tick.Ok? && tick.value >= 0
    && (forall i, p | 0 <= i < |cpts| && 0 <= p < |cpts[i].sections| && cpts[i].sections[p].name == "Globals" ::
          && Lookup(cpts[i].sections[p].items, "curTick").Ok?
          && Lookup(cpts[i].sections[p].items, "curTick").value <= tick.value)
    && (forall bound: nat | AllTicksAtMost(cpts, bound) :: tick.value <= bound)
  }

  predicate AllTicksAtMost(cpts: seq<Checkpoint>, bound: int) {
    forall i :: 0 <= i < |cpts| ==> TicksAtMost(cpts[i].sections, bound)
  }

  /** The sections of a merged checkpoint: per-CPU ones renamed and moved, the plain ones of the last checkpoint
      as they were but for the size of the memory, the two that the merge writes, and no others. */
  ghost predicate SectionsRight(cpts: seq<Checkpoint>, out: Merged)
    requires |cpts| > 0
  {
    && (forall i, p | 0 <= i < |cpts| && 0 <= p < |cpts[i].sections| && HasCpu(cpts[i].sections[p].name) ::
          CpuMoved(cpts, i, cpts[i].sections[p], out))
    && (forall sec | IsLastPlain(cpts, sec) && sec.name != STORE :: sec in out.sections)
    && (forall name | IsPlain(name) && name != STORE :: Find(out.sections, name) == Find(cpts[|cpts| - 1].sections, name))
    && StoreRight(cpts[|cpts| - 1].sections, out.sections)
    && (forall q | 0 <= q < |out.sections| ::
          out.sections[q].name == "system" || out.sections[q].name == "Globals" || NameTraced(cpts, out.sections[q].name))
  }

  ghost predicate CpuMoved(cpts: seq<Checkpoint>, i: nat, sec: Section, out: Merged)
    requires i < |cpts|
  {
    exists q :: && 0 <= q < |out.sections| && out.sections[q].name == Rename(sec.name, Id(i, |cpts|))
                && IsMoved(sec, out.sections[q], i, SumPages(cpts, i) * PAGE)
  }

  /** The name is that of a per-CPU section of some checkpoint, renamed, or of a plain one of the last. */
  ghost predicate NameTraced(cpts: seq<Checkpoint>, name: string)
    requires |cpts| > 0
  {
    || (exists i, p :: && 0 <= i < |cpts| && 0 <= p < |cpts[i].sections| && HasCpu(cpts[i].sections[p].name)
                       && name == Rename(cpts[i].sections[p].name, Id(i, |cpts|)))
    || (exists sec :: IsLastPlain(cpts, sec) && name == sec.name)
  }

  /** A plain section of the last checkpoint. */
  predicate IsLastPlain(cpts: seq<Checkpoint>, sec: Section)
    requires |cpts| > 0
  {
    sec in cpts[|cpts| - 1].sections && IsPlain(sec.name)
  }

  /** The section of the memory has every option but the size as it was. */
  ghost predicate StoreRight(before: seq<Section>, after: seq<Section>) {
    && Find(before, STORE).Ok? && Find(after, STORE).Ok?
    && Find(after, STORE).value - {"range_size"} == Find(before, STORE).value - {"range_size"}
  }

  /** Behind complete memories, the merged memory has the byte of checkpoint i at its moved address. */
  ghost predicate ByteRight(cpts: seq<Checkpoint>, memory: seq<Byte>, i: nat, a: nat)
    requires i < |cpts|
  {
    var pages := Read(cpts[i].sections, "system", "pagePtr");
    pages.Ok? && a < |cpts[i].memory| && a < pages.value * PAGE && AllPagesBefore(cpts, i) ==>
      && 0 <= a + SumPages(cpts, i) * PAGE < |memory|
      && memory[a + SumPages(cpts, i) * PAGE] == cpts[i].memory[a]
  }

  ghost predicate AllPagesBefore(cpts: seq<Checkpoint>, i: nat)
    requires i <= |cpts|
  {
    forall j | 0 <= j < i :: HasAllPages(cpts[j])
  }

  /** Every byte in use is at its moved address, and what is behind them all is digits zero. */
  ghost predicate MemoryRight(cpts: seq<Checkpoint>, out: Merged) {
    NaturalPages(cpts) ==>
      && (forall i: nat, a: nat | i < |cpts| :: ByteRight(cpts, out.memory, i, a))
      && (AllPagesBefore(cpts, |cpts|) ==>
            forall a: nat | SumPages(cpts, |cpts|) * PAGE <= a < |out.memory| :: out.memory[a] == '0' as int)
  }

  lemma MergeIs(cpts: seq<Checkpoint>, wanted: int) returns (m: Merge)
    requires Aggregate(cpts, wanted).Ok?
    ensures MergeFirst(cpts, |cpts|) == Ok(m) && |m.images| == |cpts|
    ensures forall i | 0 <= i < |cpts| ::
              PagesOf(cpts[i]).Ok? && m.images[i] == Image(cpts[i].memory, PagesOf(cpts[i]).value)
    ensures !HasName(m.config.sections, "system") && !HasName(m.config.sections, "Globals")
  {
    m := MergeFirst(cpts, |cpts|).value;
    forall i | 0 <= i < |cpts|
      ensures PagesOf(cpts[i]).Ok? && m.images[i] == Image(cpts[i].memory, PagesOf(cpts[i]).value)
    {
      ImageOf(cpts, i, |cpts|);
    }
    forall q | 0 <= q < |m.config.sections|
      ensures m.config.sections[q].name != "system" && m.config.sections[q].name != "Globals"
    {
      NoReservedNames(cpts, q);
    }
  }

  lemma OutputCounts(cpts: seq<Checkpoint>, wanted: int)
    requires Aggregate(cpts, wanted).Ok?
    ensures CountsRight(cpts, wanted, Aggregate(cpts, wanted).value)
  {
    var m := MergeIs(cpts, wanted);
    CompleteReads(m.config, PagePtr(m.images, |m.images|), |cpts|, RangeSize(m.images, wanted));
    PagePtrIsSum(cpts, m.images, |cpts|);
    AtLeastWanted(m.images, wanted);
    if NaturalPages(cpts) {
      assert Natural(m.images);
      RangeSizeIff(m.images, wanted);
      forall i | 0 <= i < |cpts| ensures m.images[i].Full() <==> HasAllPages(cpts[i]) {
      }
      assert AllFull(m.images, |m.images|) <==> forall i | 0 <= i < |cpts| :: HasAllPages(cpts[i]);
    }
  }

  lemma AtLeastWanted(images: seq<Image>, wanted: int)
    ensures RangeSize(images, wanted) >= wanted
  {
  }

  lemma OutputTick(cpts: seq<Checkpoint>, wanted: int)
    requires Aggregate(cpts, wanted).Ok?
    ensures TickRight(cpts, Aggregate(cpts, wanted).value)
  {
    var m := MergeIs(cpts, wanted);
    CompleteReads(m.config, PagePtr(m.images, |m.images|), |cpts|, RangeSize(m.images, wanted));
    MergeKeeps(cpts, 0, |cpts|);
    forall i, p | 0 <= i < |cpts| && 0 <= p < |cpts[i].sections| && cpts[i].sections[p].name == "Globals"
      ensures && Lookup(cpts[i].sections[p].items, "curTick").Ok?
              && Lookup(cpts[i].sections[p].items, "curTick").value <= m.config.tick
    {
      TicksAreCovered(cpts, i, p);
    }
    forall bound: nat | AllTicksAtMost(cpts, bound) ensures m.config.tick <= bound {
      TickIsLeast(cpts, |cpts|, bound);
    }
  }

  lemma FullBefore(cpts: seq<Checkpoint>, images: seq<Image>, i: nat)
    requires i <= |cpts| == |images| && AllPagesBefore(cpts, i)
    requires forall i | 0 <= i < |cpts| ::
               PagesOf(cpts[i]).Ok? && images[i] == Image(cpts[i].memory, PagesOf(cpts[i]).value)
    ensures AllFull(images, i)
  {
    forall j | 0 <= j < i ensures images[j].Full() {
      assert HasAllPages(cpts[j]);
    }
  }

  lemma OutputByte(cpts: seq<Checkpoint>, images: seq<Image>, wanted: int, i: nat, a: nat)
    requires i < |cpts| == |images| && Natural(images)
    requires forall i | 0 <= i < |cpts| ::
               PagesOf(cpts[i]).Ok? && images[i] == Image(cpts[i].memory, PagesOf(cpts[i]).value)
    ensures ByteRight(cpts, MergedMemory(images, wanted), i, a)
  {
    assert Read(cpts[i].sections, "system", "pagePtr") == PagesOf(cpts[i]);
    if a < |cpts[i].memory| && a < images[i].pages * PAGE && AllPagesBefore(cpts, i) {
      FullBefore(cpts, images, i);
      PagePtrIsSum(cpts, images, i);
      PageInWindow(images, i, a, wanted);
    }
  }

  lemma PaddedWithZeros(images: seq<Image>, wanted: int, a: nat)
    requires Natural(images) && AllFull(images, |images|) && Base(images, |images|) <= a < |MergedMemory(images, wanted)|
    ensures MergedMemory(images, wanted)[a] == '0' as int
  {
    WindowAtBaseIff(images, |images|);
  }

  lemma OutputMemory(cpts: seq<Checkpoint>, wanted: int)
    requires Aggregate(cpts, wanted).Ok?
    ensures MemoryRight(cpts, Aggregate(cpts, wanted).value)
  {
    var m := MergeIs(cpts, wanted);
    if NaturalPages(cpts) {
      assert Natural(m.images);
      forall i: nat, a: nat | i < |cpts| ensures ByteRight(cpts, MergedMemory(m.images, wanted), i, a) {
        OutputByte(cpts, m.images, wanted, i, a);
      }
      if AllPagesBefore(cpts, |cpts|) {
        FullBefore(cpts, m.images, |cpts|);
        PagePtrIsSum(cpts, m.images, |cpts|);
        forall a: nat | SumPages(cpts, |cpts|) * PAGE <= a < |MergedMemory(m.images, wanted)|
          ensures MergedMemory(m.images, wanted)[a] == '0' as int
        {
          PaddedWithZeros(m.images, wanted, a);
        }
      }
    }
  }

  /** A section of the merge that is not the memory's is in the output as it is. */
  lemma KeptInOutput(cpts: seq<Checkpoint>, wanted: int, q: nat)
    requires Aggregate(cpts, wanted).Ok? && q < |MergeFirst(cpts, |cpts|).value.config.sections|
    ensures q < |Aggregate(cpts, wanted).value.sections|
    ensures var sec := MergeFirst(cpts, |cpts|).value.config.sections[q];
            && Aggregate(cpts, wanted).value.sections[q].name == sec.name
            && (sec.name != STORE ==> Aggregate(cpts, wanted).value.sections[q] == sec)
  {
    var m := MergeFirst(cpts, |cpts|).value;
    var sections := m.config.sections + [SystemSection(PagePtr(m.images, |m.images|), |cpts|)];
    SetItemMeans(sections, STORE, "range_size", Number(RangeSize(m.images, wanted)), "system");
    assert sections[q] == m.config.sections[q];
  }

  lemma CpuSectionInOutput(cpts: seq<Checkpoint>, wanted: int, i: nat, p: nat)
    requires Aggregate(cpts, wanted).Ok? && i < |cpts| && p < |cpts[i].sections| && HasCpu(cpts[i].sections[p].name)
    ensures CpuMoved(cpts, i, cpts[i].sections[p], Aggregate(cpts, wanted).value)
  {
    var m := MergeIs(cpts, wanted);
    var sec := cpts[i].sections[p];
    var q := MovedSection(cpts, m, i, p);
    KeptInOutput(cpts, wanted, q);
    PagePtrIsSum(cpts, m.images, i);
    MovedItemsAre(sec, i, Base(m.images, i), m.config.sections[q].name);
    RenamedHasCpu(sec.name, Id(i, |cpts|));
    StoreIsPlain();
    assert Aggregate(cpts, wanted).value.sections[q] == m.config.sections[q];
  }

  lemma StoreIsPlain()
    ensures !HasCpu(STORE)
  {
    NoCpuIn(STORE);
  }

  lemma PlainSectionInOutput(cpts: seq<Checkpoint>, wanted: int, sec: Section)
    requires Aggregate(cpts, wanted).Ok? && |cpts| > 0 && IsLastPlain(cpts, sec) && sec.name != STORE
    ensures sec in Aggregate(cpts, wanted).value.sections
  {
    var last := cpts[|cpts| - 1].sections;
    var p :| 0 <= p < |last| && last[p] == sec;
    var before, after := AddedSection(cpts, |cpts| - 1, p);
    var m, q := MergeFirst(cpts, |cpts|).value, |before.sections|;
    assert after.sections[q] == sec;
    assert m.config.sections[q] == sec;
    KeptInOutput(cpts, wanted, q);
    assert Aggregate(cpts, wanted).value.sections[q] == sec;
  }

  lemma {:induction false} PlainAdded(cfg: Config, sections: seq<Section>, k: nat, i: nat, n: nat, base: int, name: string)
    requires k <= |sections| && i < n && AddFirst(cfg, sections, k, i, n, base).Ok? && IsPlain(name)
    ensures Find(AddFirst(cfg, sections, k, i, n, base).value.sections, name) ==
            if Find(cfg.sections, name).Ok? then Find(cfg.sections, name)
            else if i == n - 1 then Find(sections[..k], name) else Err(NoSection)
  {
    FindErr(cfg.sections, name);
    if k > 0 {
      PlainAdded(cfg, sections, k - 1, i, n, base, name);
      var before, after := AddFirst(cfg, sections, k - 1, i, n, base).value, AddFirst(cfg, sections, k, i, n, base).value;
      assert sections[..k] == sections[..k - 1] + [sections[k - 1]];
      FindIn(sections[..k - 1], [sections[k - 1]], name);
      AddedOne(before, sections[k - 1], i, n, base, name);
    }
  }

  lemma FindErr(sections: seq<Section>, name: string)
    ensures Find(sections, name).Err? ==> Find(sections, name) == Err(NoSection)
  {
  }

  /** Adding one section: only a plain section of the last checkpoint can be found under a plain name. */
  lemma AddedOne(cfg: Config, sec: Section, i: nat, n: nat, base: int, name: string)
    requires i < n && AddSection(cfg, sec, i, n, base).Ok? && IsPlain(name)
    ensures Find(AddSection(cfg, sec, i, n, base).value.sections, name) ==
            if Find(cfg.sections, name).Ok? then Find(cfg.sections, name)
            else if i == n - 1 && sec.name == name then Ok(sec.items) else Err(NoSection)
  {
    FindErr(cfg.sections, name);
    var after := AddSection(cfg, sec, i, n, base).value.sections;
    if HasCpu(sec.name) {
      RenamedHasCpu(sec.name, Id(i, n));
    }
    if after != cfg.sections {
      assert after == cfg.sections + [after[|cfg.sections|]];
      FindIn(cfg.sections, [after[|cfg.sections|]], name);
    }
  }

  lemma {:induction false} PlainMerged(cpts: seq<Checkpoint>, k: nat, name: string)
    requires k <= |cpts| && MergeFirst(cpts, k).Ok? && IsPlain(name)
    ensures Find(MergeFirst(cpts, k).value.config.sections, name) ==
            if 0 < k == |cpts| then Find(cpts[k - 1].sections, name) else Err(NoSection)
  {
    if k > 0 {
      PlainMerged(cpts, k - 1, name);
      var m, sections := MergeFirst(cpts, k - 1).value, cpts[k - 1].sections;
      PlainAdded(m.config, sections, |sections|, k - 1, |cpts|, Base(m.images, k - 1), name);
      assert sections[..|sections|] == sections;
    }
  }

  lemma CompleteFinds(config: Config, pages: int, n: nat, rangeSize: int, name: string)
    requires IsPlain(name) && Complete(config, pages, n, rangeSize).Ok?
    ensures Find(config.sections, STORE).Ok?
    ensures Find(Complete(config, pages, n, rangeSize).value, name) ==
            if name == STORE then Ok(Find(config.sections, STORE).value["range_size" := Number(rangeSize)])
            else Find(config.sections, name)
  {
    var system, globals := SystemSection(pages, n), GlobalsSection(config.tick);
    var sections := config.sections + [system];
    DistinctReserved();
    SetItemMeans(sections, STORE, "range_size", Number(rangeSize), name);
    FindIn(config.sections, [system], STORE);
    FindIn(config.sections, [system], name);
    FindErr(config.sections, name);
    FindIn(SetItem(sections, STORE, "range_size", Number(rangeSize)).value, [globals], name);
  }

  /** Under a plain name the output has what the last checkpoint has. */
  lemma PlainInOutput(cpts: seq<Checkpoint>, wanted: int, name: string)
    requires Aggregate(cpts, wanted).Ok? && |cpts| > 0 && IsPlain(name) && name != STORE
    ensures Find(Aggregate(cpts, wanted).value.sections, name) == Find(cpts[|cpts| - 1].sections, name)
  {
    var m := MergeFirst(cpts, |cpts|).value;
    PlainMerged(cpts, |cpts|, name);
    CompleteFinds(m.config, PagePtr(m.images, |m.images|), |cpts|, RangeSize(m.images, wanted), name);
  }

  lemma OnlySizeChanges(items: map<string, string>, size: string)
    ensures items["range_size" := size] - {"range_size"} == items - {"range_size"}
  {
  }

  lemma StoreInOutput(cpts: seq<Checkpoint>, wanted: int)
    requires Aggregate(cpts, wanted).Ok? && |cpts| > 0
    ensures StoreRight(cpts[|cpts| - 1].sections, Aggregate(cpts, wanted).value.sections)
  {
    var m := MergeFirst(cpts, |cpts|).value;
    StoreIsPlain();
    DistinctReserved();
    PlainMerged(cpts, |cpts|, STORE);
    CompleteFinds(m.config, PagePtr(m.images, |m.images|), |cpts|, RangeSize(m.images, wanted), STORE);
    OnlySizeChanges(Find(m.config.sections, STORE).value, Number(RangeSize(m.images, wanted)));
  }

  lemma TraceNames(cpts: seq<Checkpoint>, sec: Section, from: Pos)
    requires |cpts| > 0 && IsTrace(cpts, sec, from)
    ensures NameTraced(cpts, sec.name)
  {
    var source := cpts[from.cpt].sections[from.sec];
    if !HasCpu(source.name) {
      assert IsLastPlain(cpts, source);
    }
  }

  lemma OutputIsTraced(cpts: seq<Checkpoint>, wanted: int, q: nat)
    requires Aggregate(cpts, wanted).Ok? && |cpts| > 0 && q < |Aggregate(cpts, wanted).value.sections|
    ensures var name := Aggregate(cpts, wanted).value.sections[q].name;
            name == "system" || name == "Globals" || NameTraced(cpts, name)
  {
    var sections := MergeFirst(cpts, |cpts|).value.config.sections;
    if q < |sections| {
      KeptInOutput(cpts, wanted, q);
      var from := TraceMerge(cpts, |cpts|);
      TraceNames(cpts, sections[q], from[q]);
    } else {
      WrittenNames(cpts, wanted, q);
    }
  }

  lemma WrittenNames(cpts: seq<Checkpoint>, wanted: int, q: nat)
    requires Aggregate(cpts, wanted).Ok? && q < |Aggregate(cpts, wanted).value.sections|
    requires q >= |MergeFirst(cpts, |cpts|).value.config.sections|
    ensures Aggregate(cpts, wanted).value.sections[q].name in {"system", "Globals"}
  {
  }

  /** What the merge writes, read back. */
  lemma OutputMeans(cpts: seq<Checkpoint>, wanted: int)
    requires Aggregate(cpts, wanted).Ok? && |cpts| > 0
    ensures var out := Aggregate(cpts, wanted).value;
            CountsRight(cpts, wanted, out) && TickRight(cpts, out) && SectionsRight(cpts, out) && MemoryRight(cpts, out)
  {
    OutputCounts(cpts, wanted);
    OutputTick(cpts, wanted);
    OutputMemory(cpts, wanted);
    forall i, p | 0 <= i < |cpts| && 0 <= p < |cpts[i].sections| && HasCpu(cpts[i].sections[p].name)
      ensures CpuMoved(cpts, i, cpts[i].sections[p], Aggregate(cpts, wanted).value)
    {
      CpuSectionInOutput(cpts, wanted, i, p);
    }
    forall sec | IsLastPlain(cpts, sec) && sec.name != STORE ensures sec in Aggregate(cpts, wanted).value.sections {
      PlainSectionInOutput(cpts, wanted, sec);
    }
    forall name | IsPlain(name) && name != STORE
      ensures Find(Aggregate(cpts, wanted).value.sections, name) == Find(cpts[|cpts| - 1].sections, name)
    {
      PlainInOutput(cpts, wanted, name);
    }
    StoreInOutput(cpts, wanted);
    forall q | 0 <= q < |Aggregate(cpts, wanted).value.sections|
      ensures var name := Aggregate(cpts, wanted).value.sections[q].name;
              name == "system" || name == "Globals" || NameTraced(cpts, name)
    {
      OutputIsTraced(cpts, wanted, q);
    }
  }

  // ---------------------------------------------------------------- when the merge succeeds

  /** A section whose page address or tick, where it needs one, is a number. */
  ghost predicate SectionReadable(sec: Section) {
    if HasCpu(sec.name) then "paddr" in sec.items ==> Lookup(sec.items, "paddr").Ok?
    else sec.name == "Globals" ==> Lookup(sec.items, "curTick").Ok?
  }

  ghost predicate Readable(cpt: Checkpoint) {
    && Read(cpt.sections, "system", "pagePtr").Ok?
    && forall p | 0 <= p < |cpt.sections| :: SectionReadable(cpt.sections[p])
  }

  lemma AddSectionOkIff(cfg: Config, sec: Section, i: nat, n: nat, base: int)
    requires i < n
    ensures AddSection(cfg, sec, i, n, base).Ok? <==> SectionReadable(sec)
  {
    NoCpu();
  }

  lemma {:induction false} AddFirstOkIff(cfg: Config, sections: seq<Section>, k: nat, i: nat, n: nat, base: int)
    requires k <= |sections| && i < n
    ensures AddFirst(cfg, sections, k, i, n, base).Ok? <==> forall p | 0 <= p < k :: SectionReadable(sections[p])
  {
    if k > 0 {
      AddFirstOkIff(cfg, sections, k - 1, i, n, base);
      if AddFirst(cfg, sections, k - 1, i, n, base).Ok? {
        AddSectionOkIff(AddFirst(cfg, sections, k - 1, i, n, base).value, sections[k - 1], i, n, base);
      }
    }
  }

  ghost predicate AllReadable(cpts: seq<Checkpoint>, k: nat)
    requires k <= |cpts|
  {
    forall i | 0 <= i < k :: Readable(cpts[i])
  }

  lemma AllReadableMore(cpts: seq<Checkpoint>, k: nat)
    requires k < |cpts|
    ensures AllReadable(cpts, k + 1) <==> AllReadable(cpts, k) && Readable(cpts[k])
  {
  }

  lemma MergeOneOkIff(cpts: seq<Checkpoint>, k: nat) returns (ok: bool)
    requires k < |cpts|
    ensures ok == MergeFirst(cpts, k + 1).Ok?
    ensures ok <==> MergeFirst(cpts, k).Ok? && Readable(cpts[k])
  {
    if MergeFirst(cpts, k).Ok? {
      var m, sections := MergeFirst(cpts, k).value, cpts[k].sections;
      AddFirstOkIff(m.config, sections, |sections|, k, |cpts|, Base(m.images, k));
      assert Read(sections, "system", "pagePtr") == PagesOf(cpts[k]);
    }
    ok := MergeFirst(cpts, k + 1).Ok?;
  }

  lemma {:induction false} MergeOkIff(cpts: seq<Checkpoint>, k: nat) returns (ok: bool)
    requires k <= |cpts|
    ensures ok == MergeFirst(cpts, k).Ok?
    ensures ok <==> AllReadable(cpts, k)
  {
    if k == 0 {
      ok := true;
    } else {
      var before := MergeOkIff(cpts, k - 1);
      ok := MergeOneOkIff(cpts, k - 1);
      AllReadableMore(cpts, k - 1);
    }
  }

  lemma CompleteOkIff(config: Config, pages: int, n: nat, rangeSize: int)
    ensures Complete(config, pages, n, rangeSize).Ok? <==> Find(config.sections, STORE).Ok?
  {
    var sections := config.sections + [SystemSection(pages, n)];
    DistinctReserved();
    SetItemMeans(sections, STORE, "range_size", Number(rangeSize), STORE);
    FindIff(sections, STORE);
    FindIn(config.sections, [SystemSection(pages, n)], STORE);
  }

  /** The merge succeeds exactly when every checkpoint is readable and the last one has a memory section. */
  lemma AggregateOkIff(cpts: seq<Checkpoint>, wanted: int)
    requires |cpts| > 0
    ensures Aggregate(cpts, wanted).Ok? <==>
            AllReadable(cpts, |cpts|) && HasName(cpts[|cpts| - 1].sections, STORE)
  {
    var ok := MergeOkIff(cpts, |cpts|);
    if MergeFirst(cpts, |cpts|).Ok? {
      var m := MergeFirst(cpts, |cpts|).value;
      StoreIsPlain();
      DistinctReserved();
      PlainMerged(cpts, |cpts|, STORE);
      FindIff(cpts[|cpts| - 1].sections, STORE);
      CompleteOkIff(m.config, PagePtr(m.images, |m.images|), |cpts|, RangeSize(m.images, wanted));
    }
  }

  // ---------------------------------------------------------------- the program

  /** Copies a memory page by page; the last page read may be short, and further ones are empty. */
  method CopyPages(merged: seq<Byte>, memory: seq<Byte>, pages: int) returns (r: seq<Byte>)
    ensures r == merged + Taken(memory, pages)
  {
    r := merged;
    var x, pos := 0, 0;
    while x < pages
      invariant 0 <= x && (pages >= 0 ==> x <= pages) && (pages < 0 ==> x == 0)
      invariant 0 <= pos <= |memory| && pos == |Taken(memory, x)|
      invariant r == merged + Taken(memory, x)
      decreases pages - x
    {
      var end := if pos + PAGE <= |memory| then pos + PAGE else |memory|;
      TakenMore(memory, x, end);
      r := r + memory[pos..end];
      pos := end;
      x := x + 1;
    }
  }

  lemma TakenMore(memory: seq<Byte>, x: nat, end: nat)
    requires var pos := |Taken(memory, x)|;
             pos <= end <= |memory| && end == (if pos + PAGE <= |memory| then pos + PAGE else |memory|)
    ensures Taken(memory, x + 1) == Taken(memory, x) + memory[|Taken(memory, x)|..end]
  {
    var pos := |Taken(memory, x)|;
    if (x + 1) * PAGE <= |memory| {
      assert pos == x * PAGE && end == (x + 1) * PAGE;
    } else {
      assert end == |memory|;
    }
  }

  /** Writes pages of zero digits until the wanted size is reached. */
  method Pad(merged: seq<Byte>, pagePtr: int, wanted: int) returns (r: seq<Byte>, pages: int)
    ensures r == merged + ZeroPages(Padding(pagePtr * PAGE, wanted))
    ensures pages == pagePtr + Padding(pagePtr * PAGE, wanted)
  {
    r, pages := merged, pagePtr;
    var size, n := pagePtr * PAGE, 0;
    assert ZeroPages(0) == [];
    while size < wanted
      invariant pages == pagePtr + n && size == pages * PAGE
      invariant r == merged + ZeroPages(n)
      invariant n + Padding(size, wanted) == Padding(pagePtr * PAGE, wanted)
      decreases wanted - size
    {
      assert ZeroPages(n) + ZERO_PAGE == ZeroPages(n + 1);
      r := r + ZERO_PAGE;
      size, pages, n := size + PAGE, pages + 1, n + 1;
    }
  }

  method AddSections(cfg: Config, sections: seq<Section>, i: nat, n: nat, base: int) returns (r: Result<Config, Error>)
    requires i < n
    ensures r == AddFirst(cfg, sections, |sections|, i, n, base)
  {
    var now := cfg;
    for k := 0 to |sections|
      invariant AddFirst(cfg, sections, k, i, n, base) == Ok(now)
    {
      r := AddSection(now, sections[k], i, n, base);
      if r.Err? {
        FailureStays(cfg, sections, k + 1, |sections|, i, n, base);
        return;
      }
      now := r.value;
    }
    return Ok(now);
  }

  lemma {:induction false} FailureStays(cfg: Config, sections: seq<Section>, j: nat, k: nat, i: nat, n: nat, base: int)
    requires j <= k <= |sections| && i < n && AddFirst(cfg, sections, j, i, n, base).Err?
    ensures AddFirst(cfg, sections, k, i, n, base) == AddFirst(cfg, sections, j, i, n, base)
  {
    if j < k {
      FailureStays(cfg, sections, j, k - 1, i, n, base);
    }
  }

  lemma {:induction false} MergeFailureStays(cpts: seq<Checkpoint>, j: nat, k: nat)
    requires j <= k <= |cpts| && MergeFirst(cpts, j).Err?
    ensures MergeFirst(cpts, k) == MergeFirst(cpts, j)
  {
    if j < k {
      MergeFailureStays(cpts, j, k - 1);
    }
  }

  lemma OneMoreImage(images: seq<Image>, image: Image)
    ensures var n := |images|;
            && PagePtr(images + [image], n + 1) == PagePtr(images, n) + image.pages
            && Layout(images + [image], n + 1) == Layout(images, n) + image.Bytes()
  {
    PagePtrPrefix(images, [image], |images|);
  }

  /** The variables of the loop over the checkpoints. */
  datatype Progress = Progress(config: Config, pagePtr: int, memory: seq<Byte>)

  ghost predicate Matches(p: Progress, m: Merge) {
    p == Progress(m.config, PagePtr(m.images, |m.images|), Layout(m.images, |m.images|))
  }

  /** One checkpoint: its sections, moved by the pages used so far, then its memory. */
  method MergeOne(cpts: seq<Checkpoint>, i: nat, p: Progress, ghost m: Merge)
    returns (r: Result<Progress, Error>, ghost m': Merge)
    requires i < |cpts| && MergeFirst(cpts, i) == Ok(m) && Matches(p, m)
    ensures r.Err? ==> MergeFirst(cpts, i + 1) == Err(r.error)
    ensures r.Ok? ==> MergeFirst(cpts, i + 1) == Ok(m') && Matches(r.value, m')
  {
    m' := m;
    var cfg := AddSections(p.config, cpts[i].sections, i, |cpts|, p.pagePtr * PAGE);
    if cfg.Err? {
      return Err(cfg.error), m';
    }
    var pages := PagesOf(cpts[i]);
    if pages.Err? {
      return Err(pages.error), m';
    }
    var memory := CopyPages(p.memory, cpts[i].memory, pages.value);
    ghost var image := Image(cpts[i].memory, pages.value);
    m' := Merge(cfg.value, m.images + [image]);
    r := Ok(Progress(cfg.value, p.pagePtr + pages.value, memory));
    MatchesNext(p, m, cfg.value, image);
  }

  lemma MatchesNext(p: Progress, m: Merge, config: Config, image: Image)
    requires Matches(p, m)
    ensures Matches(Progress(config, p.pagePtr + image.pages, p.memory + image.Bytes()), Merge(config, m.images + [image]))
  {
    OneMoreImage(m.images, image);
  }

  method MergeAll(cpts: seq<Checkpoint>) returns (r: Result<Progress, Error>, ghost m: Merge)
    ensures r.Err? ==> MergeFirst(cpts, |cpts|) == Err(r.error)
    ensures r.Ok? ==> MergeFirst(cpts, |cpts|) == Ok(m) && Matches(r.value, m)
  {
    var p := Progress(Config([], 0), 0, []);
    m := Merge(Config([], 0), []);
    for i := 0 to |cpts|
      invariant MergeFirst(cpts, i) == Ok(m) && Matches(p, m)
    {
      r, m := MergeOne(cpts, i, p, m);
      if r.Err? {
        MergeFailureStays(cpts, i + 1, |cpts|);
        return;
      }
      p := r.value;
    }
    return Ok(p), m;
  }

  method MergeAndComplete(cpts: seq<Checkpoint>, wanted: int) returns (r: Result<Merged, Error>)
    ensures r == Aggregate(cpts, wanted)
  {
    ghost var m;
    var all;
    all, m := MergeAll(cpts);
    if all.Err? {
      return Err(all.error);
    }
    var p := all.value;
    var memory, pagePtr := Pad(p.memory, p.pagePtr, wanted);
    var sections := Complete(p.config, p.pagePtr, |cpts|, pagePtr * PAGE);
    if sections.Err? {
      return Err(sections.error);
    }
    return Ok(Merged(sections.value, memory));
  }

  /** The whole merge: when it succeeds, and what the merged checkpoint says when it is read back. */
  method AggregateCheckpoints(cpts: seq<Checkpoint>, wanted: int) returns (r: Result<Merged, Error>)
    requires |cpts| >= 2
    ensures r.Ok? <==> AllReadable(cpts, |cpts|) && HasName(cpts[|cpts| - 1].sections, STORE)
    ensures r.Ok? ==> CountsRight(cpts, wanted, r.value) && TickRight(cpts, r.value)
    ensures r.Ok? ==> SectionsRight(cpts, r.value) && MemoryRight(cpts, r.value)
  {
    AggregateOkIff(cpts, wanted);
    r := MergeAndComplete(cpts, wanted);
    if r.Ok? {
      OutputMeans(cpts, wanted);
    }
  }
}
