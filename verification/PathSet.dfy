/**
  The binary codec of payment path sets (section "PathSet Fields" of the XRPL
  serialization format).

  Each path is a run of elements; a type byte says which of account, currency
  or MPT issuance, and issuer follow. 0xFF separates paths and 0x00 ends the
  set. The parser rebuilds every element with `Inferred`, which recomputes the
  type byte from the values, so printing and parsing are inverse only on some
  sets; `RoundTrip` says exactly which.
*/
module PathSets {

  type Byte = bv8
  type Bits160 = b: seq<Byte> | |b| == 20 witness [0, 0, 0, 0, 0, 0, 0, 0, 0, 0, 0, 0, 0, 0, 0, 0, 0, 0, 0, 0]
  type Bits192 = b: seq<Byte> | |b| == 24
    witness [0, 0, 0, 0, 0, 0, 0, 0, 0, 0, 0, 0, 0, 0, 0, 0, 0, 0, 0, 0, 0, 0, 0, 0]

  datatype PathAsset = Currency(currency: Bits160) | Mpt(mptId: Bits192)

  datatype PathElement = PathElement(nodeType: Byte, account: Bits160, asset: PathAsset, issuer: Bits160)

  type Path = seq<PathElement>

  function Zero160(): Bits160 {
    [0, 0, 0, 0, 0, 0, 0, 0, 0, 0, 0, 0, 0, 0, 0, 0, 0, 0, 0, 0]
  }

  function Zero192(): Bits192 {
    [0, 0, 0, 0, 0, 0, 0, 0, 0, 0, 0, 0, 0, 0, 0, 0, 0, 0, 0, 0, 0, 0, 0, 0]
  }

  function Xrp(): PathAsset {
    Currency(Zero160())
  }

  predicate HasAccount(t: Byte) { t & 0x01 != 0 }

  predicate HasCurrency(t: Byte) { t & 0x10 != 0 }

  predicate HasIssuer(t: Byte) { t & 0x20 != 0 }

  predicate HasMpt(t: Byte) { t & 0x40 != 0 }

  /** A bit outside the four defined flags is set. */
  predicate HasUndefined(t: Byte) { t & 0x8E != 0 }

  /** The type byte carries an asset flag only of the kind the asset is. */
  predicate Printable(e: PathElement) {
    && (HasMpt(e.nodeType) ==> e.asset.Mpt?)
    && (HasCurrency(e.nodeType) ==> e.asset.Currency?)
  }

  /** The element for these values, its type byte computed from them. */
  function Inferred(account: Bits160, asset: PathAsset, issuer: Bits160, forceAsset: bool): (e: PathElement)
    ensures Printable(e)
    ensures !HasUndefined(e.nodeType)
    ensures HasAccount(e.nodeType) <==> account != Zero160()
    ensures HasIssuer(e.nodeType) <==> issuer != Zero160()
    ensures HasCurrency(e.nodeType) <==> asset.Currency? && (forceAsset || asset != Xrp())
    ensures HasMpt(e.nodeType) <==> asset.Mpt?
    ensures e.account == account && e.asset == asset && e.issuer == issuer
  {
    var a: Byte := if account != Zero160() then 0x01 else 0;
    var s: Byte := if forceAsset || asset != Xrp() then (if asset.Currency? then 0x10 else 0x40) else 0;
    var i: Byte := if issuer != Zero160() then 0x20 else 0;
    PathElement(a | s | i, account, asset, issuer)
  }

  // ------------------------------------------------------------------------
  // Printing.
  // ------------------------------------------------------------------------

  function PrintElement(e: PathElement): seq<Byte>
    requires Printable(e)
  {
    [e.nodeType]
    + (if HasAccount(e.nodeType) then e.account else [])
    + (if HasMpt(e.nodeType) then e.asset.mptId else [])
    + (if HasCurrency(e.nodeType) then e.asset.currency else [])
    + (if HasIssuer(e.nodeType) then e.issuer else [])
  }

  ghost predicate PrintablePath(p: Path) {
    forall i :: 0 <= i < |p| ==> Printable(p[i])
  }

  ghost predicate PrintableSet(ps: seq<Path>) {
    forall i :: 0 <= i < |ps| ==> PrintablePath(ps[i])
  }

  ghost function PrintPath(p: Path): seq<Byte>
    requires PrintablePath(p)
  {
    if p == [] then [] else PrintElement(p[0]) + PrintPath(p[1..])
  }

  /** What follows a path: the further paths, each after a separator, and the end marker. */
  ghost function PrintRest(ps: seq<Path>): seq<Byte>
    requires PrintableSet(ps)
  {
    if ps == [] then [0x00] else [0xFF] + (PrintPath(ps[0]) + PrintRest(ps[1..]))
  }

  ghost function PrintSet(ps: seq<Path>): seq<Byte>
    requires PrintableSet(ps)
  {
    if ps == [] then [0x00] else PrintPath(ps[0]) + PrintRest(ps[1..])
  }

  // ------------------------------------------------------------------------
  // Parsing.
  // ------------------------------------------------------------------------

  datatype Parsed =
    | Parsed(paths: seq<Path>, used: nat)
    | EmptyPath
    | BadElement
    | CurrencyAndMpt

  /** `get8`: past the end a zero is read and the cursor stays. */
  function Get8(data: seq<Byte>, used: nat): Byte {
    if used < |data| then data[used] else 0
  }

  /** `get160`: too few bytes left yield zero and the cursor stays. */
  function Get160(data: seq<Byte>, used: nat): Bits160 {
    if used + 20 <= |data| then data[used..used + 20] else Zero160()
  }

  function Get192(data: seq<Byte>, used: nat): Bits192 {
    if used + 24 <= |data| then data[used..used + 24] else Zero192()
  }

  function Skip(data: seq<Byte>, used: nat, width: nat): nat {
    if used + width <= |data| then used + width else used
  }

  datatype ReadResult = ReadResult(element: PathElement, used: nat)

  /** The element whose type byte `t` was just read, and the cursor after it. */
  function ReadElement(data: seq<Byte>, used: nat, t: Byte): (r: ReadResult)
    ensures r.used >= used
    ensures r.used <= |data| || r.used == used
  {
    var hasCurrency, hasMpt := HasCurrency(t), HasMpt(t);
    var account := if HasAccount(t) then Get160(data, used) else Zero160();
    var u1 := if HasAccount(t) then Skip(data, used, 20) else used;
    var currency := if hasCurrency then Currency(Get160(data, u1)) else Xrp();
    var u2 := if hasCurrency then Skip(data, u1, 20) else u1;
    var asset := if hasMpt then Mpt(Get192(data, u2)) else currency;
    var u3 := if hasMpt then Skip(data, u2, 24) else u2;
    var issuer := if HasIssuer(t) then Get160(data, u3) else Zero160();
    var u4 := if HasIssuer(t) then Skip(data, u3, 20) else u3;
    ReadResult(Inferred(account, asset, issuer, hasCurrency || hasMpt), u4)
  }

  /** The rest of the parse with `path` under way and `done` complete. */
  ghost function ParseFrom(data: seq<Byte>, used: nat, path: Path, done: seq<Path>): Parsed
    decreases |data| - used
  {
    var t := Get8(data, used);
    if t == 0x00 || t == 0xFF then
      if path == [] then EmptyPath
      else if t == 0x00 then Parsed(done + [path], Skip(data, used, 1))
      else ParseFrom(data, used + 1, [], done + [path])
    else if HasUndefined(t) then BadElement
    else if HasCurrency(t) && HasMpt(t) then CurrencyAndMpt
    else
      var r := ReadElement(data, used + 1, t);
      ParseFrom(data, r.used, path + [r.element], done)
  }

  ghost function Parse(data: seq<Byte>): Parsed {
    ParseFrom(data, 0, [], [])
  }

  // ------------------------------------------------------------------------
  // Round trip.
  // ------------------------------------------------------------------------

  /** The type byte is the one `Inferred` computes. */
  predicate Inferable(e: PathElement) {
    e == Inferred(e.account, e.asset, e.issuer, HasCurrency(e.nodeType) || HasMpt(e.nodeType))
  }

  /** The type byte is the one `Inferred` computes, and is not the end marker. */
  predicate Canonical(e: PathElement) {
    Inferable(e) && e.nodeType != 0x00
  }

  ghost predicate CanonicalPath(p: Path) {
    forall i :: 0 <= i < |p| ==> Canonical(p[i])
  }

  /** The sets the wire format carries faithfully. */
  ghost predicate WireSafe(ps: seq<Path>) {
    && ps != []
    && forall i :: 0 <= i < |ps| ==> ps[i] != [] && CanonicalPath(ps[i])
  }

  /** The parser takes the type byte for that of an element: it is no marker and no bit is undefined. */
  predicate Readable(e: PathElement) {
    e.nodeType != 0x00 && !HasUndefined(e.nodeType)
  }

  ghost predicate ReadablePath(p: Path) {
    forall i :: 0 <= i < |p| ==> Readable(p[i])
  }

  /** The sets the parser reads to the end. */
  ghost predicate ReadableSet(ps: seq<Path>) {
    && ps != []
    && forall i :: 0 <= i < |ps| ==> ps[i] != [] && ReadablePath(ps[i])
  }

  /** What the parser makes of a printed element: unflagged values are lost, and the type byte is inferred anew. */
  function Reread(e: PathElement): PathElement {
    var hasAsset := HasCurrency(e.nodeType) || HasMpt(e.nodeType);
    Inferred(if HasAccount(e.nodeType) then e.account else Zero160(),
             if hasAsset then e.asset else Xrp(),
             if HasIssuer(e.nodeType) then e.issuer else Zero160(),
             hasAsset)
  }

  function RereadPath(p: Path): (r: Path)
    ensures |r| == |p|
    ensures forall i :: 0 <= i < |p| ==> r[i] == Reread(p[i])
  {
    if p == [] then [] else [Reread(p[0])] + RereadPath(p[1..])
  }

  function RereadSet(ps: seq<Path>): (r: seq<Path>)
    ensures |r| == |ps|
    ensures forall i :: 0 <= i < |ps| ==> r[i] == RereadPath(ps[i])
  {
    if ps == [] then [] else [RereadPath(ps[0])] + RereadSet(ps[1..])
  }

  /** `data` holds `bytes` at `at`. */
  ghost predicate At(data: seq<Byte>, at: nat, bytes: seq<Byte>) {
    at + |bytes| <= |data| && data[at..at + |bytes|] == bytes
  }

  lemma AtSplit(data: seq<Byte>, at: nat, a: seq<Byte>, b: seq<Byte>)
    requires At(data, at, a + b)
    ensures At(data, at, a) && At(data, at + |a|, b)
  {
    assert data[at..at + |a|] == (a + b)[..|a|];
    assert data[at + |a|..at + |a| + |b|] == (a + b)[|a|..];
  }

  /** No printable type byte is the separator, which carries both asset flags. */
  lemma PrintableTypes(e: PathElement)
    requires Printable(e)
    ensures e.nodeType != 0xFF && !(HasCurrency(e.nodeType) && HasMpt(e.nodeType))
  {
  }

  lemma Get160At(data: seq<Byte>, at: nat, b: Bits160)
    requires At(data, at, b)
    ensures Get160(data, at) == b && Skip(data, at, 20) == at + 20
  {
  }

  lemma Get192At(data: seq<Byte>, at: nat, b: Bits192)
    requires At(data, at, b)
    ensures Get192(data, at) == b && Skip(data, at, 24) == at + 24
  {
  }

  ghost function AccountBytes(e: PathElement): seq<Byte> {
    if HasAccount(e.nodeType) then e.account else []
  }

  ghost function AssetBytes(e: PathElement): seq<Byte>
    requires Printable(e)
  {
    if HasMpt(e.nodeType) then e.asset.mptId else if HasCurrency(e.nodeType) then e.asset.currency else []
  }

  ghost function IssuerBytes(e: PathElement): seq<Byte> {
    if HasIssuer(e.nodeType) then e.issuer else []
  }

  lemma PrintedFields(e: PathElement)
    requires Printable(e)
    ensures PrintElement(e) == [e.nodeType] + (AccountBytes(e) + (AssetBytes(e) + IssuerBytes(e)))
  {
  }

  /** The three fields of a printed element stand one after the other. */
  lemma FieldsAt(data: seq<Byte>, at: nat, e: PathElement)
    requires Printable(e) && At(data, at, PrintElement(e))
    ensures Get8(data, at) == e.nodeType
    ensures At(data, at + 1, AccountBytes(e))
    ensures At(data, at + 1 + |AccountBytes(e)|, AssetBytes(e))
    ensures At(data, at + 1 + |AccountBytes(e)| + |AssetBytes(e)|, IssuerBytes(e))
    ensures |PrintElement(e)| == 1 + |AccountBytes(e)| + |AssetBytes(e)| + |IssuerBytes(e)|
  {
    PrintedFields(e);
    var a, s, i := AccountBytes(e), AssetBytes(e), IssuerBytes(e);
    AtSplit(data, at, [e.nodeType], a + (s + i));
    AtSplit(data, at + 1, a, s + i);
    AtSplit(data, at + 1 + |a|, s, i);
    assert data[at..at + 1][0] == data[at];
  }

  /** One printed element is read back field by field. */
  lemma ReadBack(data: seq<Byte>, at: nat, e: PathElement)
    requires Printable(e) && At(data, at, PrintElement(e))
    ensures Get8(data, at) == e.nodeType
    ensures ReadElement(data, at + 1, e.nodeType) == ReadResult(Reread(e), at + |PrintElement(e)|)
  {
    var t := e.nodeType;
    FieldsAt(data, at, e);
    PrintableTypes(e);
    hide Inferred, PrintElement, At;
    if HasAccount(t) {
      Get160At(data, at + 1, e.account);
    }
    var u := at + 1 + |AccountBytes(e)|;
    if HasCurrency(t) {
      Get160At(data, u, e.asset.currency);
    }
    if HasMpt(t) {
      Get192At(data, u, e.asset.mptId);
    }
    if HasIssuer(t) {
      Get160At(data, u + |AssetBytes(e)|, e.issuer);
    }
  }

  /** One parsing step over a printed element. */
  lemma StepElement(data: seq<Byte>, at: nat, e: PathElement, path: Path, done: seq<Path>)
    requires Printable(e) && At(data, at, PrintElement(e)) && e.nodeType != 0x00
    ensures ParseFrom(data, at, path, done)
            == if HasUndefined(e.nodeType) then BadElement
               else ParseFrom(data, at + |PrintElement(e)|, path + [Reread(e)], done)
  {
    hide Reread;
    PrintableTypes(e);
    ReadBack(data, at, e);
  }

  /** One parsing step over a separator. */
  lemma StepBoundary(data: seq<Byte>, at: nat, path: Path, done: seq<Path>)
    requires At(data, at, [0xFF])
    ensures ParseFrom(data, at, path, done) == if path == [] then EmptyPath else ParseFrom(data, at + 1, [], done + [path])
  {
    assert data[at..at + 1][0] == data[at];
  }

  /** The end marker closes the last path, and is an error before any element. */
  lemma StepEnd(data: seq<Byte>, at: nat, path: Path, done: seq<Path>)
    requires At(data, at, [0x00])
    ensures ParseFrom(data, at, path, done) == if path == [] then EmptyPath else Parsed(done + [path], at + 1)
  {
    assert data[at..at + 1][0] == data[at];
  }

  /** A printed path is read back element by element. */
  lemma {:induction false} ReadBackPath(data: seq<Byte>, at: nat, p: Path, path: Path, done: seq<Path>)
    requires ReadablePath(p) && PrintablePath(p)
    requires At(data, at, PrintPath(p))
    ensures ParseFrom(data, at, path, done) == ParseFrom(data, at + |PrintPath(p)|, path + RereadPath(p), done)
    decreases |p|
  {
    hide PrintElement, ParseFrom, Reread;
    if p == [] {
      assert path + RereadPath(p) == path;
    } else {
      var first := PrintElement(p[0]);
      AtSplit(data, at, first, PrintPath(p[1..]));
      StepElement(data, at, p[0], path, done);
      ReadBackPath(data, at + |first|, p[1..], path + [Reread(p[0])], done);
      assert path + [Reread(p[0])] + RereadPath(p[1..]) == path + RereadPath(p);
    }
  }

  lemma {:induction false} ReadBackRest(data: seq<Byte>, at: nat, ps: seq<Path>, path: Path, done: seq<Path>)
    requires PrintableSet(ps) && path != []
    requires forall i :: 0 <= i < |ps| ==> ps[i] != [] && ReadablePath(ps[i])
    requires At(data, at, PrintRest(ps))
    ensures ParseFrom(data, at, path, done) == Parsed(done + [path] + RereadSet(ps), at + |PrintRest(ps)|)
    decreases |ps|
  {
    hide PrintElement, PrintPath, Readable, ParseFrom, RereadPath;
    if ps == [] {
      StepEnd(data, at, path, done);
      assert done + [path] + RereadSet(ps) == done + [path];
    } else {
      var q := RereadPath(ps[0]);
      RestSplit(data, at, ps);
      StepBoundary(data, at, path, done);
      ReadBackPath(data, at + 1, ps[0], [], done + [path]);
      assert [] + q == q;
      ReadBackRest(data, at + 1 + |PrintPath(ps[0])|, ps[1..], q, done + [path]);
      assert done + [path] + [q] + RereadSet(ps[1..]) == done + [path] + RereadSet(ps);
    }
  }

  lemma RestSplit(data: seq<Byte>, at: nat, ps: seq<Path>)
    requires ps != [] && PrintableSet(ps) && At(data, at, PrintRest(ps))
    ensures At(data, at, [0xFF]) && At(data, at + 1, PrintPath(ps[0]) + PrintRest(ps[1..]))
    ensures At(data, at + 1, PrintPath(ps[0])) && At(data, at + 1 + |PrintPath(ps[0])|, PrintRest(ps[1..]))
    ensures |PrintRest(ps)| == 1 + |PrintPath(ps[0])| + |PrintRest(ps[1..])|
  {
    hide PrintElement, PrintPath, PrintablePath;
    var p, r := PrintPath(ps[0]), PrintRest(ps[1..]);
    assert PrintRest(ps) == [0xFF] + (p + r);
    AtSplit(data, at, [0xFF], p + r);
    AtSplit(data, at + 1, p, r);
  }

  /** A readable set is read to its end, whatever bytes follow it. */
  lemma ReadsWhole(ps: seq<Path>, rest: seq<Byte>)
    requires ReadableSet(ps) && PrintableSet(ps)
    ensures Parse(PrintSet(ps) + rest) == Parsed(RereadSet(ps), |PrintSet(ps)|)
  {
    hide PrintElement, PrintPath, PrintRest, Readable, ParseFrom, RereadPath;
    var data, q := PrintSet(ps) + rest, RereadPath(ps[0]);
    AtSplit(data, 0, PrintSet(ps), rest);
    AtSplit(data, 0, PrintPath(ps[0]), PrintRest(ps[1..]));
    ReadBackPath(data, 0, ps[0], [], []);
    assert [] + q == q;
    ReadBackRest(data, |PrintPath(ps[0])|, ps[1..], q, []);
    assert [] + [q] + RereadSet(ps[1..]) == RereadSet(ps);
  }

  /** A path under way, its printed rest and the further paths hold something the parser does not read. */
  ghost predicate Defect(path: Path, p: Path, ps: seq<Path>) {
    || !ReadablePath(p)
    || path + p == []
    || exists i :: 0 <= i < |ps| && (ps[i] == [] || !ReadablePath(ps[i]))
  }

  lemma DefectNext(path: Path, ps: seq<Path>)
    requires Defect(path, [], ps) && path != []
    ensures ps != [] && Defect([], ps[0], ps[1..])
  {
    hide Readable;
    assert path + [] == path;
    var i :| 0 <= i < |ps| && (ps[i] == [] || !ReadablePath(ps[i]));
    if i > 0 {
      assert ps[1..][i - 1] == ps[i];
    }
    assert [] + ps[0] == ps[0];
  }

  lemma DefectLater(path: Path, p: Path, ps: seq<Path>, e: PathElement)
    requires p != [] && Readable(p[0]) && Defect(path, p, ps)
    ensures Defect(path + [e], p[1..], ps)
  {
    hide Readable;
    if !ReadablePath(p) {
      var i :| 0 <= i < |p| && !Readable(p[i]);
      assert p[1..][i - 1] == p[i];
    }
    assert |path + p| > 0;
  }

  /** A parse that meets a defect fails, or ends before the printed set does. */
  lemma {:induction false} DefectStopsEarly(data: seq<Byte>, at: nat, p: Path, ps: seq<Path>, path: Path, done: seq<Path>)
    requires PrintablePath(p) && PrintableSet(ps) && Defect(path, p, ps)
    requires At(data, at, PrintPath(p)) && At(data, at + |PrintPath(p)|, PrintRest(ps))
    ensures var r := ParseFrom(data, at, path, done);
            r.Parsed? ==> r.used < at + |PrintPath(p)| + |PrintRest(ps)|
    decreases |ps|, |p|
  {
    hide PrintElement, Reread, ParseFrom, PrintRest, Defect;
    if p == [] {
      if path == [] {
        MarkerNext(data, at, ps, done);
      } else {
        DefectNext(path, ps);
        RestSplit(data, at, ps);
        StepBoundary(data, at, path, done);
        DefectStopsEarly(data, at + 1, ps[0], ps[1..], [], done + [path]);
      }
    } else {
      var first, others := PrintElement(p[0]), PrintPath(p[1..]);
      AtSplit(data, at, first, others);
      RestNotEmpty(ps);
      if p[0].nodeType == 0x00 {
        PrintedFields(p[0]);
        AtSplit(data, at, [0x00], AccountBytes(p[0]) + (AssetBytes(p[0]) + IssuerBytes(p[0])));
        StepEnd(data, at, path, done);
      } else {
        StepElement(data, at, p[0], path, done);
        if Readable(p[0]) {
          DefectLater(path, p, ps, Reread(p[0]));
          DefectStopsEarly(data, at + |first|, p[1..], ps, path + [Reread(p[0])], done);
        }
      }
    }
  }

  /** What follows a path begins with a marker, which is an error before any element. */
  lemma MarkerNext(data: seq<Byte>, at: nat, ps: seq<Path>, done: seq<Path>)
    requires PrintableSet(ps) && At(data, at, PrintRest(ps))
    ensures ParseFrom(data, at, [], done) == EmptyPath
  {
    hide PrintPath, ParseFrom;
    if ps == [] {
      StepEnd(data, at, [], done);
    } else {
      RestSplit(data, at, ps);
      StepBoundary(data, at, [], done);
    }
  }

  lemma RestNotEmpty(ps: seq<Path>)
    requires PrintableSet(ps)
    ensures |PrintRest(ps)| >= 1
  {
    hide PrintPath;
  }

  /** A set that is not readable is not read to its end. */
  lemma UnreadableFails(ps: seq<Path>, rest: seq<Byte>)
    requires PrintableSet(ps) && !ReadableSet(ps)
    ensures var r := Parse(PrintSet(ps) + rest); r.Parsed? ==> r.used < |PrintSet(ps)|
  {
    hide PrintPath, PrintRest, ParseFrom, Readable;
    var data := PrintSet(ps) + rest;
    AtSplit(data, 0, PrintSet(ps), rest);
    if ps == [] {
      StepEnd(data, 0, [], []);
    } else {
      AtSplit(data, 0, PrintPath(ps[0]), PrintRest(ps[1..]));
      var k :| 0 <= k < |ps| && (ps[k] == [] || !ReadablePath(ps[k]));
      if k > 0 {
        assert ps[1..][k - 1] == ps[k];
      }
      assert [] + ps[0] == ps[0];
      assert Defect([], ps[0], ps[1..]);
      DefectStopsEarly(data, 0, ps[0], ps[1..], [], []);
    }
  }

  /** Exactly the canonical elements are readable and read back as they were printed. */
  lemma CanonicalIsReread(e: PathElement)
    ensures Canonical(e) <==> Printable(e) && Readable(e) && Reread(e) == e
  {
    var hasAsset := HasCurrency(e.nodeType) || HasMpt(e.nodeType);
    if Canonical(e) {
      var i := Inferred(e.account, e.asset, e.issuer, hasAsset);
      assert Reread(e) == i by { hide Inferred; }
    }
  }

  lemma SafeIsReread(ps: seq<Path>)
    ensures WireSafe(ps) <==> PrintableSet(ps) && ReadableSet(ps) && RereadSet(ps) == ps
  {
    hide Canonical, Printable, Readable, Reread;
    forall e: PathElement
      ensures Canonical(e) <==> Printable(e) && Readable(e) && Reread(e) == e
    {
      CanonicalIsReread(e);
    }
    forall i | 0 <= i < |ps|
      ensures CanonicalPath(ps[i]) <==> PrintablePath(ps[i]) && ReadablePath(ps[i]) && RereadPath(ps[i]) == ps[i]
    {
      hide RereadSet;
      if CanonicalPath(ps[i]) {
        assert RereadPath(ps[i]) == ps[i];
      }
    }
    if WireSafe(ps) {
      assert RereadSet(ps) == ps;
    }
  }

  /**
    A set survives printing and parsing, whatever bytes follow, exactly when it
    is wire safe: it and its paths are non-empty and every type byte is the
    inferred one and non-zero.
  */
  lemma RoundTrip(ps: seq<Path>, rest: seq<Byte>)
    requires PrintableSet(ps)
    ensures Parse(PrintSet(ps) + rest) == Parsed(ps, |PrintSet(ps)|) <==> WireSafe(ps)
  {
    hide *;
    SafeIsReread(ps);
    if ReadableSet(ps) {
      ReadsWhole(ps, rest);
    } else {
      UnreadableFails(ps, rest);
    }
  }

  // ------------------------------------------------------------------------
  // Round trip up to the equality of elements.
  // ------------------------------------------------------------------------

  /** `PartialEq`: the account flag and the three values; the other flags are not compared. */
  predicate SameElement(a: PathElement, b: PathElement) {
    && (HasAccount(a.nodeType) <==> HasAccount(b.nodeType))
    && a.account == b.account && a.asset == b.asset && a.issuer == b.issuer
  }

  ghost predicate SamePath(p: Path, q: Path) {
    |p| == |q| && forall i :: 0 <= i < |p| ==> SameElement(p[i], q[i])
  }

  ghost predicate SameSet(ps: seq<Path>, qs: seq<Path>) {
    |ps| == |qs| && forall i :: 0 <= i < |ps| ==> SamePath(ps[i], qs[i])
  }

  /** Every value the element holds is flagged, and the account is flagged only when it is not zero. */
  predicate Flagged(e: PathElement) {
    && (HasAccount(e.nodeType) <==> e.account != Zero160())
    && (HasCurrency(e.nodeType) || HasMpt(e.nodeType) || e.asset == Xrp())
    && (HasIssuer(e.nodeType) || e.issuer == Zero160())
  }

  ghost predicate FlaggedPath(p: Path) {
    forall i :: 0 <= i < |p| ==> Flagged(p[i])
  }

  /** Exactly such elements are read back equal to what was printed. */
  lemma RereadSame(e: PathElement)
    ensures SameElement(Reread(e), e) <==> Flagged(e)
  {
    hide Inferred;
  }

  lemma RereadSamePath(p: Path)
    ensures SamePath(RereadPath(p), p) <==> FlaggedPath(p)
  {
    hide SameElement, Flagged, Reread;
    forall i | 0 <= i < |p|
      ensures SameElement(Reread(p[i]), p[i]) <==> Flagged(p[i])
    {
      RereadSame(p[i]);
    }
  }

  /**
    A set is read back equal to what was printed, as the source compares
    elements, exactly when the parser reads it to its end and every element
    flags all it holds and no zero account.
  */
  lemma RoundTripUpToEquality(ps: seq<Path>, rest: seq<Byte>)
    requires PrintableSet(ps)
    ensures var r := Parse(PrintSet(ps) + rest);
            (r.Parsed? && r.used == |PrintSet(ps)| && SameSet(r.paths, ps))
            <==> ReadableSet(ps) && forall i :: 0 <= i < |ps| ==> FlaggedPath(ps[i])
  {
    hide PrintSet, Parse, ReadableSet, PrintableSet, SamePath, FlaggedPath, RereadPath;
    if ReadableSet(ps) {
      ReadsWhole(ps, rest);
      forall i | 0 <= i < |ps|
        ensures SamePath(RereadPath(ps[i]), ps[i]) <==> FlaggedPath(ps[i])
      {
        RereadSamePath(ps[i]);
      }
    } else {
      UnreadableFails(ps, rest);
    }
  }

  // ------------------------------------------------------------------------
  // Consequences.
  // ------------------------------------------------------------------------

  /** Printing is injective on safe sets, even as a prefix of longer data. */
  lemma PrintInjective(a: seq<Path>, b: seq<Path>, x: seq<Byte>, y: seq<Byte>)
    requires WireSafe(a) && WireSafe(b)
    requires (SafeIsReread(a); SafeIsReread(b); PrintSet(a) + x == PrintSet(b) + y)
    ensures a == b && x == y
  {
    SafeIsReread(a);
    SafeIsReread(b);
    RoundTrip(a, x);
    RoundTrip(b, y);
    assert x == (PrintSet(a) + x)[|PrintSet(a)|..];
    assert y == (PrintSet(b) + y)[|PrintSet(b)|..];
  }

  ghost predicate InferablePath(p: Path) {
    forall i :: 0 <= i < |p| ==> Inferable(p[i])
  }

  lemma ReadIsInferable(data: seq<Byte>, used: nat, t: Byte)
    ensures Inferable(ReadElement(data, used, t).element)
  {
  }

  /** Whatever the bytes, a successful parse holds non-empty paths of inferable elements. */
  lemma {:induction false} ParseShape(data: seq<Byte>, used: nat, path: Path, done: seq<Path>)
    requires InferablePath(path)
    requires forall i :: 0 <= i < |done| ==> done[i] != [] && InferablePath(done[i])
    ensures var r := ParseFrom(data, used, path, done);
            r.Parsed? ==>
              && r.paths != []
              && (forall i :: 0 <= i < |r.paths| ==> r.paths[i] != [] && InferablePath(r.paths[i]))
    decreases |data| - used
  {
    var t := Get8(data, used);
    if t == 0x00 || t == 0xFF {
      if path != [] && t == 0xFF {
        ParseShape(data, used + 1, [], done + [path]);
      }
    } else if !HasUndefined(t) && !(HasCurrency(t) && HasMpt(t)) {
      var r := ReadElement(data, used + 1, t);
      ReadIsInferable(data, used + 1, t);
      ParseShape(data, r.used, path + [r.element], done);
    }
  }

  ghost predicate Typed(ps: seq<Path>) {
    forall i, j :: 0 <= i < |ps| && 0 <= j < |ps[i]| ==> ps[i][j].nodeType != 0x00
  }

  lemma InferableIsPrintable(e: PathElement)
    requires Inferable(e)
    ensures Printable(e)
  {
  }

  /**
    Whatever bytes the parser accepts, printing the set it yields and parsing
    again, with anything behind it, gives the same set if and only if no parsed
    element has the type byte zero.
  */
  lemma ReparsesExactlyWhenTyped(data: seq<Byte>, rest: seq<Byte>)
    requires Parse(data).Parsed?
    ensures PrintableSet(Parse(data).paths)
    ensures var ps := Parse(data).paths; Parse(PrintSet(ps) + rest) == Parsed(ps, |PrintSet(ps)|) <==> Typed(ps)
  {
    ParseShape(data, 0, [], []);
    var ps := Parse(data).paths;
    hide Parse, PrintSet, Inferable, Printable;
    forall i, j | 0 <= i < |ps| && 0 <= j < |ps[i]|
      ensures Printable(ps[i][j])
    {
      InferableIsPrintable(ps[i][j]);
    }
    assert WireSafe(ps) <==> Typed(ps);
    RoundTrip(ps, rest);
  }

  /**
    The parser accepts a flagged but zero account and gives the element a zero
    type byte: the parsed set then prints to bytes the parser rejects.
  */
  lemma ParsedSetNotReprintable()
    ensures var data := [0x01] + Zero160() + [0x00];
            var e := Inferred(Zero160(), Xrp(), Zero160(), false);
            && Parse(data) == Parsed([[e]], 22)
            && PrintableSet([[e]])
            && Parse(PrintSet([[e]])) == EmptyPath
  {
    var data := [0x01] + Zero160() + [0x00];
    var e := Inferred(Zero160(), Xrp(), Zero160(), false);
    assert data[1..21] == Zero160();
    var r := ReadElement(data, 1, 0x01);
    assert r == ReadResult(e, 21);
    assert ParseFrom(data, 0, [], []) == ParseFrom(data, 21, [] + [e], []);
    assert [] + [e] == [e] && [] + [[e]] == [[e]];
    assert e.nodeType == 0;
    assert PrintPath([e])[0] == 0;
  }

  // ------------------------------------------------------------------------
  // The loops.
  // ------------------------------------------------------------------------

  lemma {:induction false} PrintPathAppend(p: Path, e: PathElement)
    requires PrintablePath(p) && Printable(e)
    ensures PrintPath(p + [e]) == PrintPath(p) + PrintElement(e)
  {
    hide PrintElement, Printable;
    if p == [] {
      assert p + [e] == [e];
    } else {
      PrintPathAppend(p[1..], e);
      assert (p + [e])[1..] == p[1..] + [e];
    }
  }

  /** Serializes one element after what is already written. */
  method AddElement(e: PathElement, before: seq<Byte>) returns (out: seq<Byte>)
    requires Printable(e)
    ensures out == before + PrintElement(e)
  {
    out := before + [e.nodeType];
    if HasAccount(e.nodeType) {
      out := out + e.account;
    }
    if HasMpt(e.nodeType) {
      out := out + e.asset.mptId;
    }
    if HasCurrency(e.nodeType) {
      out := out + e.asset.currency;
    }
    if HasIssuer(e.nodeType) {
      out := out + e.issuer;
    }
  }

  /** Serializes one path after what is already written. */
  method AddPath(p: Path, before: seq<Byte>) returns (out: seq<Byte>)
    requires PrintablePath(p)
    ensures out == before + PrintPath(p)
  {
    hide PrintElement;
    out := before;
    for j := 0 to |p|
      invariant out == before + PrintPath(p[..j])
    {
      out := AddElement(p[j], out);
      PrintPathAppend(p[..j], p[j]);
      assert p[..j + 1] == p[..j] + [p[j]];
    }
    assert p[..|p|] == p;
  }

  /** What the paths from `k` on still add to the output. */
  ghost function Remaining(ps: seq<Path>, k: nat): seq<Byte>
    requires PrintableSet(ps) && k <= |ps|
  {
    if k == 0 then PrintSet(ps) else PrintRest(ps[k..])
  }

  lemma RemainingStep(ps: seq<Path>, k: nat)
    requires PrintableSet(ps) && k < |ps|
    ensures Remaining(ps, k) == (if k == 0 then [] else [0xFF]) + (PrintPath(ps[k]) + Remaining(ps, k + 1))
  {
    hide PrintPath;
    assert ps[k..][1..] == ps[k + 1..];
  }

  lemma Regroup(a: seq<Byte>, b: seq<Byte>, c: seq<Byte>, d: seq<Byte>)
    ensures a + (b + (c + d)) == a + b + c + d
  {
  }

  /** Serializes a path set. */
  method Add(ps: seq<Path>) returns (out: seq<Byte>)
    requires PrintableSet(ps)
    ensures out == PrintSet(ps)
  {
    assert Remaining(ps, |ps|) == [0x00] && [] + Remaining(ps, 0) == PrintSet(ps);
    hide PrintPath, Remaining, PrintSet;
    out := [];
    var first := true;
    for k := 0 to |ps|
      invariant first <==> k == 0
      invariant out + Remaining(ps, k) == PrintSet(ps)
    {
      RemainingStep(ps, k);
      Regroup(out, if k == 0 then [] else [0xFF], PrintPath(ps[k]), Remaining(ps, k + 1));
      if !first {
        out := out + [0xFF];
      } else {
        assert out + [] == out;
      }
      out := AddPath(ps[k], out);
      first := false;
    }
    out := out + [0x00];
  }

  /** Parses a path set from the start of `data`. */
  method FromSerial(data: seq<Byte>) returns (r: Parsed)
    ensures r == Parse(data)
  {
    var used, path, done := 0, [], [];
    while true
      invariant used <= |data|
      invariant ParseFrom(data, used, path, done) == Parse(data)
      decreases |data| - used
    {
      var t := Get8(data, used);
      used := Skip(data, used, 1);
      if t == 0x00 || t == 0xFF {
        if path == [] {
          return EmptyPath;
        }
        done := done + [path];
        path := [];
        if t == 0x00 {
          return Parsed(done, used);
        }
      } else if HasUndefined(t) {
        return BadElement;
      } else {
        if HasCurrency(t) && HasMpt(t) {
          return CurrencyAndMpt;
        }
        var account, asset, issuer := Zero160(), Xrp(), Zero160();
        var at := used;
        if HasAccount(t) {
          account := Get160(data, at);
          at := Skip(data, at, 20);
        }
        if HasCurrency(t) {
          asset := Currency(Get160(data, at));
          at := Skip(data, at, 20);
        }
        if HasMpt(t) {
          asset := Mpt(Get192(data, at));
          at := Skip(data, at, 24);
        }
        if HasIssuer(t) {
          issuer := Get160(data, at);
          at := Skip(data, at, 20);
        }
        var e := Inferred(account, asset, issuer, HasCurrency(t) || HasMpt(t));
        assert ReadElement(data, used, t) == ReadResult(e, at);
        used := at;
        path := path + [e];
      }
    }
  }
}
