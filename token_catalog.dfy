/** `load_tokens`: the token catalog (a JSON array of objects) turned into the
    `TokenData` list that the coins-list endpoint serves. Opening the file and
    parsing the JSON are not modelled: the input is the parsed array. */
module TokenCatalog {
  import opened Wrappers
  import opened Ascii

  /** A value of a catalog object, as far as `load_tokens` looks at it:
      `as_str()` gives the text of a JSON string and nothing for any other
      kind of value (null, boolean, number, array, object). */
  datatype JsonValue = JString(text: string) | JNonString

  /** One object of the catalog array, field name to value. */
  type Record = map<string, JsonValue>

  /** A coin as the coins-list endpoint describes it. */
  datatype TokenData = TokenData(id: string, symbol: string, name: string, platforms: map<string, string>)

  /** Why reading a field of a record panics: indexing the map with a missing
      key, or `as_str().unwrap()` on a value that is not a string. */
  datatype FieldError = MissingField(field: string) | NotAString(field: string)

  /** `load_tokens` panicked on the record at `index`. */
  datatype LoadError = LoadError(index: nat, cause: FieldError)

  /** The single platform every token is listed on. */
  const Platform := "ethereum"

  predicate HasString(rec: Record, field: string) {
    field in rec && rec[field].JString?
  }

  /** A record `load_tokens` reads without panicking. */
  predicate WellFormed(rec: Record) {
    HasString(rec, "symbol") && HasString(rec, "address")
  }

  /** The coin id of a lowercased symbol: three symbols have a slug of their
      own, every other symbol is its own id. */
  function CanonicalId(symbol: string): string {
    match symbol
    case "eth" => "ethereum"
    case "wbtc" => "wrapped-bitcoin"
    case "bat" => "basic-attention-token"
    case _ => symbol
  }

  /** Each slug is the id of its ticker and of itself, and of nothing else:
      the table is not one-to-one, since a symbol spelled like a slug gets
      that slug too. Every other symbol is its own id. */
  lemma CanonicalIdSlugs(symbol: string)
    ensures var id := CanonicalId(symbol);
      && (id == "ethereum" <==> symbol == "eth" || symbol == "ethereum")
      && (id == "wrapped-bitcoin" <==> symbol == "wbtc" || symbol == "wrapped-bitcoin")
      && (id == "basic-attention-token" <==> symbol == "bat" || symbol == "basic-attention-token")
      && (symbol != "eth" && symbol != "wbtc" && symbol != "bat" ==> id == symbol)
  {
  }

  /** The entry built from one record's symbol and address. */
  function MakeToken(symbol: string, address: string): TokenData {
    var lowered := ToAsciiLowercase(symbol);
    TokenData(CanonicalId(lowered), lowered, lowered, map[Platform := ToAsciiLowercase(address)])
  }

  /** An entry's symbol is the lowercased symbol, which equals the input up
      to ASCII case; its name is its symbol; it is listed on one platform only,
      at the lowercased address; its id is the symbol's canonical id. */
  lemma MakeTokenShape(symbol: string, address: string)
    ensures var t := MakeToken(symbol, address);
      && t.symbol == ToAsciiLowercase(symbol) && t.name == t.symbol
      && IsAsciiLowercase(t.symbol) && EqIgnoreAsciiCase(t.symbol, symbol)
      && t.platforms.Keys == {Platform} && t.platforms[Platform] == ToAsciiLowercase(address)
      && t.id == CanonicalId(t.symbol)
  {
  }

  function StringField(rec: Record, field: string): (r: Result<string, FieldError>)
    ensures r.Success? <==> HasString(rec, field)
  {
    if field !in rec then Failure(MissingField(field))
    else match rec[field]
      case JString(text) => Success(text)
      case JNonString => Failure(NotAString(field))
  }

  /** The closure `load_tokens` maps over the records: the symbol is read
      before the address, so a record bad in both fails on the symbol. */
  function TokenFromRecord(rec: Record): (r: Result<TokenData, FieldError>)
    ensures r.Success? <==> WellFormed(rec)
    ensures r.Success? ==> r.value == MakeToken(rec["symbol"].text, rec["address"].text)
    ensures r.Failure? ==> r.error.field == (if HasString(rec, "symbol") then "address" else "symbol")
    ensures r.Failure? ==> (r.error.MissingField? <==> r.error.field !in rec)
  {
    match StringField(rec, "symbol")
    case Failure(e) => Failure(e)
    case Success(symbol) =>
      match StringField(rec, "address")
      case Failure(e) => Failure(e)
      case Success(address) => Success(MakeToken(symbol, address))
  }

  /** `load_tokens` on the parsed catalog: one entry per record, in order, or
      the panic of the first record that cannot be read. */
  function LoadTokens(values: seq<Record>): (r: Result<seq<TokenData>, LoadError>)
    ensures r.Success? <==> forall i :: 0 <= i < |values| ==> WellFormed(values[i])
    ensures r.Success? ==> |r.value| == |values|
    ensures r.Success? ==> forall i :: 0 <= i < |values| ==> TokenFromRecord(values[i]) == Success(r.value[i])
    ensures r.Failure? ==> r.error.index < |values|
    ensures r.Failure? ==> forall j :: 0 <= j < r.error.index ==> WellFormed(values[j])
    ensures r.Failure? ==> TokenFromRecord(values[r.error.index]) == Failure(r.error.cause)
  {
    if values == [] then Success([])
    else
      var n := |values| - 1;
      var prefix := values[..n];
      assert forall i :: 0 <= i < n ==> prefix[i] == values[i];
      match LoadTokens(prefix)
      case Failure(e) =>
        assert !WellFormed(values[e.index]);
        Failure(e)
      case Success(tokens) =>
        match TokenFromRecord(values[n])
        case Failure(cause) =>
          assert !WellFormed(values[n]);
          Failure(LoadError(n, cause))
        case Success(t) =>
          var all := tokens + [t];
          assert |all| == |values| && all[n] == t;
          assert forall i :: 0 <= i < n ==> all[i] == tokens[i];
          Success(all)
  }

  /** Two records give the same entry exactly when their symbols and their
      addresses agree up to ASCII case ("ETH" and "eth" are one token). */
  lemma MakeTokenIgnoresAsciiCase(s1: string, a1: string, s2: string, a2: string)
    ensures MakeToken(s1, a1) == MakeToken(s2, a2) <==> EqIgnoreAsciiCase(s1, s2) && EqIgnoreAsciiCase(a1, a2)
  {
    var t1, t2 := MakeToken(s1, a1), MakeToken(s2, a2);
    MakeTokenShape(s1, a1);
    MakeTokenShape(s2, a2);
    LowercaseEqualIffEqIgnoreCase(s1, s2);
    LowercaseEqualIffEqIgnoreCase(a1, a2);
    if t1 == t2 {
      assert t1.platforms[Platform] == t2.platforms[Platform];
    }
  }

  /** Different lowercased symbols share a coin id only in the three pairs
      slug-symbol / slug, such as "eth" and "ethereum". */
  lemma CanonicalIdCollisions(s1: string, s2: string)
    requires s1 != s2
    ensures CanonicalId(s1) == CanonicalId(s2) <==>
      {s1, s2} == {"eth", "ethereum"} ||
      {s1, s2} == {"wbtc", "wrapped-bitcoin"} ||
      {s1, s2} == {"bat", "basic-attention-token"}
  {
  }

  /** Loading a catalog split in two loads each part and joins the lists. */
  // Not an induction: the attribute keeps Dafny from trying one, so the proof
  // rests on the per-index ensures of LoadTokens and the asserts below.
  lemma {:induction false} LoadTokensConcat(a: seq<Record>, b: seq<Record>)
    ensures LoadTokens(a + b).Success? <==> LoadTokens(a).Success? && LoadTokens(b).Success?
    ensures LoadTokens(a + b).Success? ==> LoadTokens(a + b).value == LoadTokens(a).value + LoadTokens(b).value
  {
    var ab := a + b;
    assert forall i :: 0 <= i < |a| ==> ab[i] == a[i];
    assert forall i :: 0 <= i < |b| ==> ab[|a| + i] == b[i];
    if LoadTokens(ab).Success? {
      var r, ra, rb := LoadTokens(ab).value, LoadTokens(a).value, LoadTokens(b).value;
      assert forall i :: 0 <= i < |a| ==> r[i] == ra[i];
      assert forall i :: 0 <= i < |b| ==> r[|a| + i] == rb[i];
      assert r == ra + rb;
    }
  }
}
