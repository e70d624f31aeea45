/** Names printed into the cluster and parsed back: seed volumes, ISO volumes and tags. */
module Naming {
  import opened Prelude
  import opened Text
  import Proxmox

  const CIDATA_PREFIX := "proxmops-cidata-"

  /** cidataFilename */
  function CidataFilename(vmid: int, hash: string): string {
    SeedName(CIDATA_PREFIX, vmid, hash)
  }

  function SeedName(prefix: string, vmid: int, hash: string): string {
    prefix + (Decimal(vmid) + "-" + hash + ".iso")
  }

  function Decimal(n: int): string {
    if n < 0 then "-" + Itoa(-n) else Itoa(n)
  }

  /** The ide0 value that attaches an ISO volume. */
  function IsoVolume(storage: string, filename: string): string {
    storage + ":iso/" + filename + ",media=cdrom"
  }

  /** parseCidataHash */
  function ParseCidataHash(ide0: string): string {
    HashAfter(CIDATA_PREFIX, ide0)
  }

  function HashAfter(prefix: string, ide0: string): string {
    var i := Index(ide0, prefix);
    if i < 0 then ""
    else
      var rest := Cut(ide0[i + |prefix|..], ".iso").before;
      var c := Cut(rest, "-");
      if c.found then c.after else ""
  }

  /** parseISOVolume */
  function ParseISOVolume(ide: string): (string, string) {
    var c := Cut(Cut(ide, ",").before, ":iso/");
    if c.found then (c.before, c.after) else ("", "")
  }

  /** isoFilename */
  function IsoFilename(volid: string): Option<string> {
    var c := Cut(volid, ":iso/");
    if c.found then Some(Base(c.after)) else None
  }

  predicate IsHex(c: char) {
    '0' <= c <= '9' || 'a' <= c <= 'f'
  }

  predicate IsHash(h: string) {
    |h| == 8 && forall c :: c in h ==> IsHex(c)
  }

  predicate IsStorageName(s: string) {
    ',' !in s && ':' !in s && Index(s, CIDATA_PREFIX) < 0
  }

  lemma FilenameShape(vmid: nat, hash: string)
    requires IsHash(hash)
    ensures Cut(Itoa(vmid) + "-" + hash, "-") == CutResult(Itoa(vmid), hash, true)
    ensures Cut(Itoa(vmid) + "-" + hash + ".iso", "-") == CutResult(Itoa(vmid), hash + ".iso", true)
    ensures '.' !in Itoa(vmid) + "-" + hash && ',' !in Itoa(vmid) + "-" + hash + ".iso"
  {
    hide Cut, Itoa;
    CutAfter(Itoa(vmid), "-", hash);
    CutAfter(Itoa(vmid), "-", hash + ".iso");
    assert Itoa(vmid) + "-" + hash + ".iso" == Itoa(vmid) + "-" + (hash + ".iso");
  }

  // What the proofs need to know about the text of the prefix.
  predicate IsPrefix(p: string) {
    p != "" && ':' !in p && ',' !in p && p[0] !in ":iso/"
  }

  lemma CidataPrefix()
    ensures IsPrefix(CIDATA_PREFIX)
  {
  }

  lemma PrefixOffset(p: string, storage: string, rest: string)
    requires IsPrefix(p) && Index(storage, p) < 0
    ensures Index(storage + ":iso/" + p + rest, p) == |storage| + 5
  {
    var s := storage + ":iso/" + p + rest;
    assert s[|storage| + 5..|storage| + 5 + |p|] == p;
    assert At(s, p, |storage| + 5);
    assert s[|storage|] == ':';
    forall j | 0 <= j < |storage| + 5
      ensures !At(s, p, j)
    {
      if j >= |storage| {
        assert s[j] == ":iso/"[j - |storage|];
        NotAt(s, p, j);
      } else if j + |p| <= |storage| {
        assert !At(storage, p, j);
        assert s[j..j + |p|] == storage[j..j + |p|];
      } else {
        assert s[j..j + |p|][|storage| - j] == ':';
      }
    }
  }

  // What is left of the ide0 value after the prefix.
  lemma TailParsesBack(vmid: nat, hash: string)
    requires IsHash(hash)
    ensures Cut(Cut(Itoa(vmid) + "-" + hash + ".iso" + ",media=cdrom", ".iso").before, "-")
         == CutResult(Itoa(vmid), hash, true)
  {
    FilenameShape(vmid, hash);
    CutAfter(Itoa(vmid) + "-" + hash, ".iso", ",media=cdrom");
  }

  lemma SeedNameParsesBack(p: string, storage: string, vmid: nat, hash: string)
    requires IsPrefix(p) && Index(storage, p) < 0 && IsHash(hash)
    ensures HashAfter(p, IsoVolume(storage, SeedName(p, vmid, hash))) == hash
  {
    hide Cut, Index, Itoa, IsPrefix, IsHash;
    var ide := IsoVolume(storage, SeedName(p, vmid, hash));
    var rest := Itoa(vmid) + "-" + hash + ".iso" + ",media=cdrom";
    PrefixOffset(p, storage, rest);
    assert ide == storage + ":iso/" + p + rest;
    assert ide[|storage| + 5 + |p|..] == rest;
    TailParsesBack(vmid, hash);
  }

  /** The ide0 value printed at attach time parses back to the hash and to the volume it names. */
  lemma SeedVolumeParsesBack(storage: string, vmid: nat, hash: string)
    requires IsStorageName(storage) && IsHash(hash)
    ensures ParseCidataHash(IsoVolume(storage, CidataFilename(vmid, hash))) == hash
    ensures ParseISOVolume(IsoVolume(storage, CidataFilename(vmid, hash))) == (storage, CidataFilename(vmid, hash))
  {
    CidataPrefix();
    SeedNameParsesBack(CIDATA_PREFIX, storage, vmid, hash);
    FilenameShape(vmid, hash);
    IsoVolumeParsesBack(storage, CidataFilename(vmid, hash));
  }

  lemma IsoVolumeParsesBack(storage: string, filename: string)
    requires ',' !in storage && ':' !in storage && ',' !in filename
    ensures ParseISOVolume(IsoVolume(storage, filename)) == (storage, filename)
  {
    hide Cut;
    var vol := storage + ":iso/" + filename;
    CutAfter(vol, ",", "media=cdrom");
    assert "," + "media=cdrom" == ",media=cdrom";
    assert vol + "," + "media=cdrom" == vol + ("," + "media=cdrom");
    CutAfter(storage, ":iso/", filename);
  }

  /** Seed files of different guests, or of different contents, have different names. */
  lemma CidataFilenameInjective(v1: nat, h1: string, v2: nat, h2: string)
    requires IsHash(h1) && IsHash(h2) && CidataFilename(v1, h1) == CidataFilename(v2, h2)
    ensures v1 == v2 && h1 == h2
  {
    SeedNameInjective(CIDATA_PREFIX, v1, h1, v2, h2);
  }

  lemma SeedNameInjective(p: string, v1: nat, h1: string, v2: nat, h2: string)
    requires IsHash(h1) && IsHash(h2) && SeedName(p, v1, h1) == SeedName(p, v2, h2)
    ensures v1 == v2 && h1 == h2
  {
    FilenameShape(v1, h1);
    FilenameShape(v2, h2);
    assert SeedName(p, v1, h1)[|p|..] == Itoa(v1) + "-" + h1 + ".iso";
    assert SeedName(p, v2, h2)[|p|..] == Itoa(v2) + "-" + h2 + ".iso";
    AtoiOfItoa(v1);
    AtoiOfItoa(v2);
    assert h1 == (h1 + ".iso")[..8] && h2 == (h2 + ".iso")[..8];
  }

  /** A downloaded image is listed under the name it was requested with. */
  lemma IsoFilenameParsesBack(storage: string, path: string)
    requires ':' !in storage
    ensures IsoFilename(storage + ":iso/" + Base(path)) == Some(Base(path))
  {
    CutAfter(storage, ":iso/", Base(path));
    BaseOfBase(path);
  }

  function KeepTrimmed(parts: seq<string>): seq<string> {
    if parts == [] then []
    else
      var rest := KeepTrimmed(parts[..|parts| - 1]);
      var p := TrimSpace(parts[|parts| - 1]);
      if p != "" then rest + [p] else rest
  }

  /** The tags that the semicolon-separated `raw` holds. */
  function Tags(raw: string): seq<string> {
    if raw == "" then [] else KeepTrimmed(Split(raw, ';'))
  }

  /** parseTags */
  method ParseTags(raw: string) returns (tags: seq<string>)
    ensures tags == Tags(raw)
  {
    if raw == "" {
      return [];
    }
    var parts := Split(raw, ';');
    tags := [];
    for i := 0 to |parts|
      invariant tags == KeepTrimmed(parts[..i])
    {
      assert parts[..i + 1][..i] == parts[..i];
      var p := TrimSpace(parts[i]);
      if p != "" {
        tags := tags + [p];
      }
    }
    assert parts[..|parts|] == parts;
  }

  lemma {:induction false} KeepTrimmedAppend(a: seq<string>, b: seq<string>)
    ensures KeepTrimmed(a + b) == KeepTrimmed(a) + KeepTrimmed(b)
  {
    if b == [] {
      assert a + b == a;
    } else {
      KeepTrimmedAppend(a, b[..|b| - 1]);
      assert (a + b)[..|a + b| - 1] == a + b[..|b| - 1];
    }
  }

  lemma {:induction false} JoinLast(tags: seq<string>, tag: string)
    requires |tags| > 0
    ensures Join(tags + [tag], ';') == Join(tags, ';') + ";" + tag
  {
    if |tags| > 1 {
      JoinLast(tags[1..], tag);
      assert (tags + [tag])[1..] == tags[1..] + [tag];
      calc {
        Join(tags + [tag], ';');
        tags[0] + ";" + (Join(tags[1..], ';') + ";" + tag);
        Join(tags, ';') + ";" + tag;
      }
    } else {
      assert (tags + [tag])[1..] == [tag];
    }
  }

  predicate CleanTag(tag: string) {
    tag != "" && ';' !in tag && TrimSpace(tag) == tag
  }

  lemma CleanLast(tags: seq<string>, m: string)
    requires CleanTag(m)
    ensures m in Tags(Join(tags + [m], ';'))
  {
    SplitWhole(m, ';');
    assert KeepTrimmed([m]) == [m] by {
      assert [m][..0] == [];
    }
    if |tags| == 0 {
      assert tags + [m] == [m];
    } else {
      JoinLast(tags, m);
      SplitAround(Join(tags, ';'), ';', m);
      KeepTrimmedAppend(Split(Join(tags, ';'), ';'), [m]);
    }
  }

  /** Whatever the user's tags are, the ownership tag survives the join and the split. */
  lemma ManagedTagRecovered(tags: seq<string>)
    ensures Proxmox.MANAGED_TAG in Tags(Join(tags + [Proxmox.MANAGED_TAG], ';'))
  {
    CleanLast(tags, Proxmox.MANAGED_TAG);
  }

  lemma {:induction false} SplitJoined(tags: seq<string>)
    requires tags != [] && forall t :: t in tags ==> CleanTag(t)
    ensures Split(Join(tags, ';'), ';') == tags && KeepTrimmed(tags) == tags
  {
    var n := |tags| - 1;
    assert tags[n] in tags;
    SplitWhole(tags[n], ';');
    assert tags == tags[..n] + [tags[n]];
    if n > 0 {
      SplitJoined(tags[..n]);
      JoinLast(tags[..n], tags[n]);
      SplitAround(Join(tags[..n], ';'), ';', tags[n]);
    } else {
      assert tags[..0] == [] && KeepTrimmed([]) == [];
    }
  }

  /** Tags that are trimmed, non-empty and free of ';' all survive the join and the split, in order. */
  lemma TagsRecovered(tags: seq<string>)
    requires forall t :: t in tags ==> CleanTag(t)
    ensures Tags(Join(tags, ';')) == tags
  {
    if tags != [] {
      SplitJoined(tags);
      assert tags[0] in tags && tags[0] != "";
      assert Split("", ';') != tags;
    }
  }

  lemma {:induction false} KeepTrimmedMeaning(parts: seq<string>, t: string)
    ensures t in KeepTrimmed(parts) <==> t != "" && exists p :: p in parts && TrimSpace(p) == t
  {
    if parts != [] {
      var front, last := parts[..|parts| - 1], parts[|parts| - 1];
      assert parts == front + [last];
      KeepTrimmedMeaning(front, t);
      assert last in parts;
    }
  }

  /** The tags are exactly the trimmed, non-empty parts between semicolons, and each of them is clean. */
  lemma TagsExactly(raw: string, t: string)
    ensures t in Tags(raw) <==> t != "" && exists p :: p in Split(raw, ';') && TrimSpace(p) == t
    ensures t in Tags(raw) ==> CleanTag(t)
  {
    hide TrimSpace, IsSpace;
    KeepTrimmedMeaning(Split(raw, ';'), t);
    SplitParts(raw, ';');
    assert raw == "" ==> Split(raw, ';') == [""] && TrimSpace("") == "" by {
      TrimNothing();
    }
    if t in Tags(raw) {
      var p :| p in Split(raw, ';') && TrimSpace(p) == t;
      TrimmedIsPart(p, ';');
    }
  }
}
