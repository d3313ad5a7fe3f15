/** Field validity for requests, responses and trailers (sections 8.2 and 8.3 of RFC 9113). */
module Http2Fields {
  import opened Bytes
  import opened Decimals
  import opened HpackSpec

  const MAX_HEADER_LIST: nat := 65536

  predicate LowerTchar(c: byte) {
    || 97 <= c <= 122 || 48 <= c <= 57
    || c in Ascii("!#$%&'*+-.^_`|~")
  }

  predicate ValidName(n: seq<byte>) {
    && n != []
    && var start := if n[0] == 58 then 1 else 0;
    && start < |n|
    && forall i | start <= i < |n| :: LowerTchar(n[i])
  }

  predicate EdgeSpace(c: byte) { c == 32 || c == 9 }

  predicate ValidValue(v: seq<byte>) {
    && (v != [] ==> !EdgeSpace(v[0]) && !EdgeSpace(v[|v| - 1]))
    && forall i | 0 <= i < |v| :: v[i] != 0 && v[i] != 13 && v[i] != 10
  }

  function ParseDigits(v: seq<byte>): Option<nat> {
    if v == [] || |v| > 16 || !Digits(v) then None else Some(Number(v))
  }

  datatype Section = RequestSection | ResponseSection | RequestTrailers | ResponseTrailers

  predicate IsTrailers(k: Section) { k.RequestTrailers? || k.ResponseTrailers? }
  predicate IsResponse(k: Section) { k.ResponseSection? || k.ResponseTrailers? }

  predicate Pseudo(f: Field) { f.name != [] && f.name[0] == 58 }

  predicate RequestPseudo(n: seq<byte>) {
    n == Ascii(":method") || n == Ascii(":scheme") || n == Ascii(":path") || n == Ascii(":authority")
  }

  predicate ConnectionSpecific(n: seq<byte>) {
    || n == Ascii("connection") || n == Ascii("keep-alive") || n == Ascii("proxy-connection")
    || n == Ascii("transfer-encoding") || n == Ascii("upgrade")
  }

  predicate IsLength(f: Field) { f.name == Ascii("content-length") }

  predicate StatusCode(v: seq<byte>) {
    |v| == 3 && ParseDigits(v).Some? && 100 <= ParseDigits(v).value <= 599
  }

  /** What a field must satisfy on its own. */
  predicate FieldOk(f: Field, k: Section) {
    && ValidName(f.name) && ValidValue(f.value)
    && (if Pseudo(f) then
          && !IsTrailers(k)
          && (if IsResponse(k) then f.name == Ascii(":status") && StatusCode(f.value)
              else RequestPseudo(f.name) && (f.name == Ascii(":path") ==> f.value != []))
        else
          && !ConnectionSpecific(f.name)
          && (f.name == Ascii("te") ==> !IsResponse(k) && f.value == Ascii("trailers"))
          && (IsLength(f) ==> ParseDigits(f.value).Some?))
  }

  /** What a field must satisfy given one before it: pseudo-headers lead and do not repeat, lengths agree. */
  predicate PairOk(f: Field, g: Field) {
    && (Pseudo(g) ==> Pseudo(f) && f.name != g.name)
    && (IsLength(f) && IsLength(g) ==> ParseDigits(f.value) == ParseDigits(g.value))
  }

  predicate PrefixOk(fs: seq<Field>, n: nat, k: Section)
    requires n <= |fs|
  {
    && (forall i | 0 <= i < n :: FieldOk(fs[i], k))
    && (forall i, j | 0 <= i < j < n :: PairOk(fs[i], fs[j]))
  }

  function ListSize(fs: seq<Field>): nat {
    if fs == [] then 0 else ListSize(fs[..|fs| - 1]) + |fs[|fs| - 1].name| + |fs[|fs| - 1].value| + 32
  }

  /** Value of the first field with this name. */
  function ValueOf(fs: seq<Field>, name: seq<byte>): Option<seq<byte>> {
    if fs == [] then None
    else match ValueOf(fs[..|fs| - 1], name)
      case Some(v) => Some(v)
      case None => if fs[|fs| - 1].name == name then Some(fs[|fs| - 1].value) else None
  }

  predicate Has(fs: seq<Field>, name: string) { ValueOf(fs, Ascii(name)).Some? }

  /** The pseudo-headers a section must carry. */
  predicate Complete(fs: seq<Field>, k: Section) {
    match k
    case RequestTrailers => true
    case ResponseTrailers => true
    case ResponseSection => Has(fs, ":status")
    case RequestSection =>
      if ValueOf(fs, Ascii(":method")) == Some(Ascii("CONNECT"))
      then Has(fs, ":authority") && !Has(fs, ":scheme") && !Has(fs, ":path")
      else Has(fs, ":method") && Has(fs, ":scheme") && Has(fs, ":path")
  }

  predicate WellFormed(fs: seq<Field>, k: Section) {
    PrefixOk(fs, |fs|, k) && ListSize(fs) <= MAX_HEADER_LIST && Complete(fs, k)
  }

  /** The length a section declares, if it does. */
  function DeclaredLength(fs: seq<Field>): Option<nat> {
    match ValueOf(fs, Ascii("content-length"))
    case None => None
    case Some(v) => ParseDigits(v)
  }

  function StatusOf(fs: seq<Field>): nat {
    match ValueOf(fs, Ascii(":status"))
    case None => 0
    case Some(v) => if ParseDigits(v).Some? then ParseDigits(v).value else 0
  }

  predicate IsHeadRequest(fs: seq<Field>) { ValueOf(fs, Ascii(":method")) == Some(Ascii("HEAD")) }

  // ---- the single scan of the source ----

  lemma ValueOfPrefix(fs: seq<Field>, i: nat, name: seq<byte>)
    requires i < |fs|
    ensures ValueOf(fs[..i + 1], name)
         == match ValueOf(fs[..i], name)
            case Some(v) => Some(v)
            case None => if fs[i].name == name then Some(fs[i].value) else None
  {
    assert fs[..i + 1][..i] == fs[..i];
  }

  lemma {:induction false} ValueOfIsSome(fs: seq<Field>, n: nat, name: seq<byte>)
    requires n <= |fs|
    ensures ValueOf(fs[..n], name).None? ==> forall i | 0 <= i < n :: fs[i].name != name
    ensures ValueOf(fs[..n], name).Some? ==>
              exists i | 0 <= i < n :: fs[i].name == name && fs[i].value == ValueOf(fs[..n], name).value
  {
    if n > 0 {
      ValueOfIsSome(fs, n - 1, name);
      ValueOfPrefix(fs, n - 1, name);
    }
  }

  function SectionOf(trailers: bool, response: bool): Section {
    if trailers then (if response then ResponseTrailers else RequestTrailers) else if response then ResponseSection else RequestSection
  }

  lemma PrefixStep(fs: seq<Field>, i: nat, k: Section)
    requires i < |fs| && PrefixOk(fs, i, k)
    ensures PrefixOk(fs, i + 1, k) <==> FieldOk(fs[i], k) && forall j | 0 <= j < i :: PairOk(fs[j], fs[i])
    ensures !PrefixOk(fs, i + 1, k) ==> !PrefixOk(fs, |fs|, k)
  {
    hide FieldOk, PairOk;
  }

  /** Facts the scan carries along stand for all the pairs with earlier fields. */
  lemma PairsByFacts(fs: seq<Field>, i: nat, k: Section, regular: bool)
    requires i < |fs| && PrefixOk(fs, i, k) && FieldOk(fs[i], k)
    requires regular <==> exists j | 0 <= j < i :: !Pseudo(fs[j])
    ensures (forall j | 0 <= j < i :: PairOk(fs[j], fs[i])) <==>
              && (Pseudo(fs[i]) ==> !regular && ValueOf(fs[..i], fs[i].name).None?)
              && (IsLength(fs[i]) && DeclaredLength(fs[..i]).Some? ==> DeclaredLength(fs[..i]) == ParseDigits(fs[i].value))
  {
    hide FieldOk, ParseDigits, Ascii;
    ValueOfIsSome(fs, i, fs[i].name);
    LengthsAgree(fs, i, k);
  }

  lemma LengthsAgree(fs: seq<Field>, i: nat, k: Section)
    requires i <= |fs| && PrefixOk(fs, i, k)
    ensures DeclaredLength(fs[..i]).None? ==> forall j | 0 <= j < i :: !IsLength(fs[j])
    ensures DeclaredLength(fs[..i]).Some? ==> forall j | 0 <= j < i && IsLength(fs[j]) :: ParseDigits(fs[j].value) == DeclaredLength(fs[..i])
  {
    hide ParseDigits, Ascii, ValidName, ValidValue;
    ValueOfIsSome(fs, i, Ascii("content-length"));
    LengthNotPseudo();
    if ValueOf(fs[..i], Ascii("content-length")).Some? {
      var m :| 0 <= m < i && fs[m].name == Ascii("content-length") && fs[m].value == ValueOf(fs[..i], Ascii("content-length")).value;
      assert FieldOk(fs[m], k) && IsLength(fs[m]);
      forall j | 0 <= j < i && IsLength(fs[j]) ensures ParseDigits(fs[j].value) == ParseDigits(fs[m].value) {
        if j < m {
          assert PairOk(fs[j], fs[m]);
        } else if m < j {
          assert PairOk(fs[m], fs[j]);
        }
      }
    }
  }

  lemma LengthNotPseudo()
    ensures Ascii("content-length")[0] != 58
  {
  }
}
