/** validate_fields: one scan of a field section decides all of its rules. */
module Http2Validate {
  import opened Bytes
  import opened HpackSpec
  import opened Http2Fields

  /** What the scan has seen so far. */
  datatype Scan = Scan(regular: bool, verb: Option<seq<byte>>, scheme: bool, path: bool, authority: bool,
                       size: nat, length: Option<nat>, status: nat)

  const START: Scan := Scan(false, None, false, false, false, 0, None, 0)

  ghost predicate Tracks(fs: seq<Field>, i: nat, k: Section, s: Scan) {
    && i <= |fs| && PrefixOk(fs, i, k)
    && (s.regular <==> exists j | 0 <= j < i :: !Pseudo(fs[j]))
    && s.size == ListSize(fs[..i])
    && s.verb == ValueOf(fs[..i], Ascii(":method"))
    && s.scheme == Has(fs[..i], ":scheme") && s.path == Has(fs[..i], ":path") && s.authority == Has(fs[..i], ":authority")
    && s.length == DeclaredLength(fs[..i])
    && s.status == StatusOf(fs[..i]) && (s.status == 0 <==> !Has(fs[..i], ":status"))
  }

  function Moved(s: Scan, f: Field): Scan {
    Scan(s.regular || !Pseudo(f),
         if s.verb.None? && f.name == Ascii(":method") then Some(f.value) else s.verb,
         s.scheme || f.name == Ascii(":scheme"), s.path || f.name == Ascii(":path"), s.authority || f.name == Ascii(":authority"),
         s.size + |f.name| + |f.value| + 32,
         if s.length.None? && IsLength(f) then ParseDigits(f.value) else s.length,
         if s.status == 0 && f.name == Ascii(":status") && ParseDigits(f.value).Some? then ParseDigits(f.value).value else s.status)
  }

  lemma StartTracks(fs: seq<Field>, k: Section)
    ensures Tracks(fs, 0, k, START)
  {
    assert fs[..0] == [];
  }

  lemma SizeStep(fs: seq<Field>, i: nat)
    requires i < |fs|
    ensures ListSize(fs[..i + 1]) == ListSize(fs[..i]) + |fs[i].name| + |fs[i].value| + 32
  {
    assert fs[..i + 1][..i] == fs[..i];
  }

  lemma ValuesMove(fs: seq<Field>, i: nat, k: Section, s: Scan)
    requires Tracks(fs, i, k, s) && i < |fs|
    ensures var s' := Moved(s, fs[i]);
            && s'.verb == ValueOf(fs[..i + 1], Ascii(":method"))
            && s'.scheme == Has(fs[..i + 1], ":scheme") && s'.path == Has(fs[..i + 1], ":path")
            && s'.authority == Has(fs[..i + 1], ":authority")
  {
    hide ValueOf, PrefixOk, ListSize, DeclaredLength, StatusOf, Ascii, Pseudo, ParseDigits;
    ValueOfPrefix(fs, i, Ascii(":method"));
    ValueOfPrefix(fs, i, Ascii(":scheme"));
    ValueOfPrefix(fs, i, Ascii(":path"));
    ValueOfPrefix(fs, i, Ascii(":authority"));
  }

  lemma LengthMoves(fs: seq<Field>, i: nat, k: Section, s: Scan)
    requires Tracks(fs, i, k, s) && i < |fs| && PrefixOk(fs, i + 1, k)
    ensures Moved(s, fs[i]).length == DeclaredLength(fs[..i + 1])
  {
    hide ListSize, Has, StatusOf, Pseudo;
    ValueOfPrefix(fs, i, Ascii("content-length"));
    LengthsAgree(fs, i, k);
    ValueOfIsSome(fs, i, Ascii("content-length"));
    hide ValueOf, ParseDigits, Ascii, PrefixOk;
  }

  lemma StatusMoves(fs: seq<Field>, i: nat, k: Section, s: Scan)
    requires Tracks(fs, i, k, s) && i < |fs| && PrefixOk(fs, i + 1, k)
    ensures var s' := Moved(s, fs[i]); s'.status == StatusOf(fs[..i + 1]) && (s'.status == 0 <==> !Has(fs[..i + 1], ":status"))
  {
    assert FieldOk(fs[i], k);
    if fs[i].name == Ascii(":status") {
      StatusIsCode(fs[i], k);
    }
    hide PrefixOk, ListSize, DeclaredLength, ParseDigits, ValidName, ValidValue, FieldOk, ValueOf;
    ValueOfPrefix(fs, i, Ascii(":status"));
    hide Ascii;
  }

  /** A field that passes and is called :status carries a code. */
  lemma StatusIsCode(f: Field, k: Section)
    requires FieldOk(f, k) && f.name == Ascii(":status")
    ensures StatusCode(f.value)
  {
    assert Ascii(":status")[0] == 58 && Ascii(":status")[1] != Ascii(":scheme")[2];
    assert Ascii(":status")[2] != Ascii(":method")[2] && Ascii(":status")[2] != Ascii(":scheme")[2];
    assert |Ascii(":status")| == 7;
  }

  lemma Advances(fs: seq<Field>, i: nat, k: Section, s: Scan)
    requires Tracks(fs, i, k, s) && i < |fs| && PrefixOk(fs, i + 1, k)
    ensures Tracks(fs, i + 1, k, Moved(s, fs[i]))
  {
    ValuesMove(fs, i, k, s);
    LengthMoves(fs, i, k, s);
    StatusMoves(fs, i, k, s);
    SizeStep(fs, i);
    hide ValueOf, ListSize, PrefixOk, DeclaredLength, StatusOf, Has, Ascii, ParseDigits;
    if Moved(s, fs[i]).regular && !Pseudo(fs[i]) {
      assert 0 <= i < i + 1;
    }
  }

  /** A pseudo-header of this name was met before. */
  predicate Seen(s: Scan, name: seq<byte>) {
    || (name == Ascii(":method") && s.verb.Some?) || (name == Ascii(":scheme") && s.scheme)
    || (name == Ascii(":path") && s.path) || (name == Ascii(":authority") && s.authority)
    || (name == Ascii(":status") && s.status != 0)
  }

  /** What the field must satisfy next to those before it, by the facts alone. */
  predicate FactsAllow(s: Scan, f: Field) {
    && (Pseudo(f) ==> !s.regular && !Seen(s, f.name))
    && (IsLength(f) && s.length.Some? ==> s.length == ParseDigits(f.value))
  }

  lemma FactsDecide(fs: seq<Field>, i: nat, k: Section, s: Scan)
    requires Tracks(fs, i, k, s) && i < |fs|
    ensures PrefixOk(fs, i + 1, k) <==> FieldOk(fs[i], k) && FactsAllow(s, fs[i])
    ensures !PrefixOk(fs, i + 1, k) ==> !PrefixOk(fs, |fs|, k)
  {
    PrefixStep(fs, i, k);
    if FieldOk(fs[i], k) {
      PairsByFacts(fs, i, k, s.regular);
      if Pseudo(fs[i]) {
        PseudoNames(fs[i], k);
        hide FieldOk, PrefixOk, ValueOf, Ascii, ParseDigits, ListSize, StatusOf, DeclaredLength;
        SeenIsHas(fs, i, k, s, fs[i].name);
      }
    }
  }

  lemma PseudoNames(f: Field, k: Section)
    requires FieldOk(f, k) && Pseudo(f)
    ensures f.name == Ascii(":status") || RequestPseudo(f.name)
  {
  }

  lemma SeenIsHas(fs: seq<Field>, i: nat, k: Section, s: Scan, name: seq<byte>)
    requires Tracks(fs, i, k, s) && (name == Ascii(":status") || RequestPseudo(name))
    ensures Seen(s, name) <==> ValueOf(fs[..i], name).Some?
  {
    hide PrefixOk, ListSize, StatusOf, DeclaredLength, Pseudo;
    PseudoDiffer();
    hide ValueOf, Ascii;
  }

  lemma PseudoDiffer()
    ensures Ascii(":method") != Ascii(":scheme") && Ascii(":method") != Ascii(":path") && Ascii(":method") != Ascii(":authority")
    ensures Ascii(":scheme") != Ascii(":path") && Ascii(":scheme") != Ascii(":authority") && Ascii(":path") != Ascii(":authority")
    ensures Ascii(":status") != Ascii(":method") && Ascii(":status") != Ascii(":scheme")
    ensures Ascii(":status") != Ascii(":path") && Ascii(":status") != Ascii(":authority")
  {
    assert Ascii(":method")[1] != Ascii(":scheme")[1] && Ascii(":method")[1] != Ascii(":status")[1];
    assert Ascii(":scheme")[2] != Ascii(":status")[2];
  }

  // ---- the scan as it runs ----

  method CheckField(f: Field, trailers: bool, response: bool, s: Scan) returns (ok: bool)
    ensures ok <==> FieldOk(f, SectionOf(trailers, response)) && FactsAllow(s, f)
  {
    hide ValidName, ValidValue, ParseDigits;
    PseudoDiffer();
    if !ValidName(f.name) || !ValidValue(f.value) {
      return false;
    }
    NameNotEmpty(f.name);
    if f.name[0] == 58 {
      assert !IsLength(f) by { LengthNotPseudo(); }
      hide Ascii;
      if trailers || s.regular {
        return false;
      }
      if response {
        if f.name != Ascii(":status") || s.status != 0 || |f.value| != 3 {
          return false;
        }
        var code := ParseDigits(f.value);
        return code.Some? && 100 <= code.value <= 599;
      }
      if f.name == Ascii(":method") {
        return s.verb.None?;
      } else if f.name == Ascii(":scheme") {
        return !s.scheme;
      } else if f.name == Ascii(":path") {
        return !s.path && f.value != [];
      } else {
        return f.name == Ascii(":authority") && !s.authority;
      }
    }
    hide Ascii;
    if ConnectionSpecific(f.name) || (f.name == Ascii("te") && (response || f.value != Ascii("trailers"))) {
      return false;
    }
    if f.name == Ascii("content-length") {
      var n := ParseDigits(f.value);
      return n.Some? && (s.length.Some? ==> n == s.length);
    }
    ok := true;
  }

  lemma NameNotEmpty(n: seq<byte>)
    requires ValidName(n)
    ensures n != []
  {
  }

  datatype Facts = Invalid | Facts(length: Option<nat>, isHead: bool, status: nat)

  method ValidateFields(fields: seq<Field>, trailers: bool, response: bool) returns (r: Facts)
    ensures r.Facts? <==> WellFormed(fields, SectionOf(trailers, response))
    ensures r.Facts? ==> r.length == DeclaredLength(fields) && r.status == StatusOf(fields)
    ensures r.Facts? && !trailers && !response ==> r.isHead == IsHeadRequest(fields)
  {
    hide FieldOk, FactsAllow, PrefixOk, DeclaredLength, StatusOf, ListSize, Tracks;
    ghost var k := SectionOf(trailers, response);
    var s, i := START, 0;
    StartTracks(fields, k);
    while i < |fields|
      invariant 0 <= i <= |fields| && Tracks(fields, i, k, s)
    {
      SizeStep(fields, i);
      if |fields[i].name| > MAX_HEADER_LIST || |fields[i].value| > MAX_HEADER_LIST {
        SizeGrows(fields, i + 1);
        return Invalid;
      }
      FactsDecide(fields, i, k, s);
      var ok := CheckField(fields[i], trailers, response, s);
      if !ok {
        return Invalid;
      }
      Advances(fields, i, k, s);
      s, i := Moved(s, fields[i]), i + 1;
    }
    ScanEnds(fields, k, s);
    if s.size > MAX_HEADER_LIST {
      return Invalid;
    }
    if trailers {
      return Facts(s.length, false, s.status);
    }
    if response {
      return if s.status != 0 then Facts(s.length, false, s.status) else Invalid;
    }
    if s.verb == Some(Ascii("CONNECT")) {
      HeadIsNotConnect();
      return if s.authority && !s.scheme && !s.path then Facts(s.length, false, s.status) else Invalid;
    }
    r := if s.verb.Some? && s.scheme && s.path then Facts(s.length, s.verb == Some(Ascii("HEAD")), s.status) else Invalid;
  }

  lemma HeadIsNotConnect()
    ensures Ascii("HEAD") != Ascii("CONNECT")
  {
  }

  lemma ScanEnds(fs: seq<Field>, k: Section, s: Scan)
    requires Tracks(fs, |fs|, k, s)
    ensures PrefixOk(fs, |fs|, k) && s.size == ListSize(fs) && s.length == DeclaredLength(fs) && s.status == StatusOf(fs)
    ensures s.verb == ValueOf(fs, Ascii(":method")) && (s.status == 0 <==> !Has(fs, ":status"))
    ensures s.scheme == Has(fs, ":scheme") && s.path == Has(fs, ":path") && s.authority == Has(fs, ":authority")
  {
    assert fs[..|fs|] == fs;
  }

  lemma {:induction false} SizeGrows(fs: seq<Field>, i: nat)
    requires i <= |fs|
    ensures ListSize(fs[..i]) <= ListSize(fs)
    decreases |fs| - i
  {
    if i < |fs| {
      SizeStep(fs, i);
      SizeGrows(fs, i + 1);
    } else {
      assert fs[..i] == fs;
    }
  }
}
