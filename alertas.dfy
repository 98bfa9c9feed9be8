/** The set of current alerts (`class Alertas`): today's and the coming days' alerts,
    built from the API's top-level JSON object. */
module Alertas {
  import opened Wrappers
  import opened Json
  import Alerta

  /** The elements `for alerta in value` visits: a list gives its items and a string
      its one-character strings. A dict gives its keys; each key is a string, which
      `Alerta(...)` cannot index by key, so a non-empty dict fails here and an empty
      one gives nothing. Numbers, booleans and null are not iterable. */
  function Elements(v: Json): (r: Result<seq<Json>>)
    ensures v.JArray? ==> r == Success(v.items)
    ensures (v.JNull? || v.JBool? || v.JInt?) ==> r.Failure?
  {
    match v
    case JArray(items) => Success(items)
    case JString(s) => Success(Chars(s))
    case JObject(fields) => if fields == map[] then Success([]) else Failure
    case _ => Failure
  }

  /** `Alerta(alerta)`: the element is indexed by key, so only an object can succeed. */
  function BuildOne(lib: Alerta.Library, v: Json): (r: Result<Alerta.Alerta>)
    ensures r.Success? ==> v.JObject? && r == Alerta.FromJson(v.fields, lib)
    ensures v.JObject? ==> r == Alerta.FromJson(v.fields, lib)
  {
    match v
    case JObject(fields) => Alerta.FromJson(fields, lib)
    case _ => Failure
  }

  /** A way to build one record from one array element. The collection's
      specification is stated for any builder and used with `BuildOne`. */
  type Builder = Json -> Result<Alerta.Alerta>

  /** One record per element, in order; any failing element fails the whole list. */
  function BuildAll(items: seq<Json>, build: Builder): (r: Result<seq<Alerta.Alerta>>)
    ensures r.Success? <==> forall i | 0 <= i < |items| :: build(items[i]).Success?
    ensures r.Success? ==>
      && |r.value| == |items|
      && forall i | 0 <= i < |items| :: r.value[i] == build(items[i]).value
  {
    if items == [] then Success([])
    else
      var init :- BuildAll(items[..|items| - 1], build);
      var last :- build(items[|items| - 1]);
      Success(init + [last])
  }

  /** The two lists `__init__` fills, or failure: `hoje` first, then `futuro`. */
  function Parse(api: map<string, Json>, build: Builder): (r: Result<(seq<Alerta.Alerta>, seq<Alerta.Alerta>)>)
    ensures r.Success? ==> "hoje" in api && "futuro" in api
    ensures r.Success? ==> Elements(api["hoje"]).Success? && Elements(api["futuro"]).Success?
    ensures r.Success? ==> |r.value.0| == |Elements(api["hoje"]).value| && |r.value.1| == |Elements(api["futuro"]).value|
  {
    var hojeValue :- Alerta.Field(api, "hoje");
    var hojeItems :- Elements(hojeValue);
    var hoje :- BuildAll(hojeItems, build);
    var futuroValue :- Alerta.Field(api, "futuro");
    var futuroItems :- Elements(futuroValue);
    var futuro :- BuildAll(futuroItems, build);
    Success((hoje, futuro))
  }

  /** Construction succeeds exactly when both keys hold lists (or strings, or empty
      objects) whose every element builds a record. Then `hoje[i]` and `futuro[i]` are
      the records built from the i-th elements. */
  lemma ParseCharacterized(api: map<string, Json>, build: Builder)
    ensures Parse(api, build).Success? <==>
      && "hoje" in api && Elements(api["hoje"]).Success?
      && "futuro" in api && Elements(api["futuro"]).Success?
      && (forall i | 0 <= i < |Elements(api["hoje"]).value| ::
            build(Elements(api["hoje"]).value[i]).Success?)
      && (forall i | 0 <= i < |Elements(api["futuro"]).value| ::
            build(Elements(api["futuro"]).value[i]).Success?)
    ensures Parse(api, build).Success? ==>
      var (hoje, futuro) := Parse(api, build).value;
      var hojeItems, futuroItems := Elements(api["hoje"]).value, Elements(api["futuro"]).value;
      && |hoje| == |hojeItems| && |futuro| == |futuroItems|
      && (forall i | 0 <= i < |hoje| :: Success(hoje[i]) == build(hojeItems[i]))
      && (forall i | 0 <= i < |futuro| :: Success(futuro[i]) == build(futuroItems[i]))
  {
  }

  /** With the record constructor of `Alerta` as the builder, a list that builds holds
      only objects, and its i-th record is the one `Alerta.FromJson` builds from the
      i-th object; a list holding anything but objects does not build. */
  lemma BuildAllFromJson(items: seq<Json>, lib: Alerta.Library)
    ensures BuildAll(items, e => BuildOne(lib, e)).Success? ==>
      forall i | 0 <= i < |items| ::
        && items[i].JObject?
        && Alerta.FromJson(items[i].fields, lib) == Success(BuildAll(items, e => BuildOne(lib, e)).value[i])
  {
    var built := BuildAll(items, e => BuildOne(lib, e));
    if built.Success? {
      forall i | 0 <= i < |items|
        ensures items[i].JObject?
        ensures Alerta.FromJson(items[i].fields, lib) == Success(built.value[i])
      {
        assert BuildOne(lib, items[i]).Success?;
      }
    }
  }

  /** `str(alerta)` for each alert, in order. */
  function RenderedAll(lib: Alerta.Library, hoje: seq<Alerta.Alerta>): (blocks: seq<string>)
    ensures |blocks| == |hoje|
    ensures forall i | 0 <= i < |hoje| :: blocks[i] == Alerta.Rendered(lib, hoje[i])
  {
    seq(|hoje|, i requires 0 <= i < |hoje| => Alerta.Rendered(lib, hoje[i]))
  }

  /** What `__str__` builds from the rendered alerts of `hoje`. */
  function Listing(blocks: seq<string>): (text: string)
    ensures |text| >= 7 + 5 * |blocks|
    ensures text[..7] == "hoje: \n"
  {
    if blocks == [] then "hoje: \n"
    else Listing(blocks[..|blocks| - 1]) + "  - " + blocks[|blocks| - 1] + "\n"
  }

  /** The entries of the listing, first alert first. */
  function Entries(blocks: seq<string>): (text: string)
    ensures text == [] <==> blocks == []
  {
    if blocks == [] then "" else "  - " + blocks[0] + "\n" + Entries(blocks[1..])
  }

  lemma {:induction false} EntriesAppend(xs: seq<string>, ys: seq<string>)
    ensures Entries(xs + ys) == Entries(xs) + Entries(ys)
    decreases |xs|
  {
    if xs == [] {
      assert xs + ys == ys;
    } else {
      assert (xs + ys)[0] == xs[0];
      assert (xs + ys)[1..] == xs[1..] + ys;
      EntriesAppend(xs[1..], ys);
    }
  }

  /** The listing is the header line followed by one `"  - "` entry per alert, in
      order; with no alerts it is the header alone. */
  lemma {:induction false} ListingIsHeaderThenEntries(blocks: seq<string>)
    ensures Listing(blocks) == "hoje: \n" + Entries(blocks)
    decreases |blocks|
  {
    if blocks != [] {
      var init, last := blocks[..|blocks| - 1], blocks[|blocks| - 1];
      ListingIsHeaderThenEntries(init);
      EntriesAppend(init, [last]);
      assert init + [last] == blocks;
      assert Entries([last]) == "  - " + last + "\n" + Entries([]);
    }
  }

  lemma ListingSnoc(blocks: seq<string>, i: nat)
    requires i < |blocks|
    ensures Listing(blocks[..i + 1]) == Listing(blocks[..i]) + "  - " + blocks[i] + "\n"
  {
    assert blocks[..i + 1][..i] == blocks[..i];
  }

  class Alertas {
    var hoje: seq<Alerta.Alerta>
    var futuro: seq<Alerta.Alerta>

    constructor ()
      ensures hoje == [] && futuro == []
    {
      hoje := [];
      futuro := [];
    }

    /** `Alertas.__init__`: appends one record per element of `api_json["hoje"]`, then
        one per element of `api_json["futuro"]`. A failure anywhere raises, so no
        object is produced. */
    static method Create(api: map<string, Json>, lib: Alerta.Library) returns (r: Result<Alertas>)
      ensures r.Success? <==> Parse(api, e => BuildOne(lib, e)).Success?
      ensures r.Success? ==> fresh(r.value)
      ensures r.Success? ==> (r.value.hoje, r.value.futuro) == Parse(api, e => BuildOne(lib, e)).value
    {
      r := CreateWith(api, e => BuildOne(lib, e));
    }

    /** The two append phases of `__init__`, for a given way of building one record. */
    static method CreateWith(api: map<string, Json>, build: Builder) returns (r: Result<Alertas>)
      ensures r.Success? <==> Parse(api, build).Success?
      ensures r.Success? ==> fresh(r.value)
      ensures r.Success? ==> (r.value.hoje, r.value.futuro) == Parse(api, build).value
    {
      var alertas := new Alertas();
      if "hoje" !in api { return Failure; }
      var hojeItems := Elements(api["hoje"]);
      if hojeItems.Failure? { return Failure; }
      var ok := alertas.AppendHoje(hojeItems.value, build);
      if !ok { return Failure; }
      if "futuro" !in api { return Failure; }
      var futuroItems := Elements(api["futuro"]);
      if futuroItems.Failure? { return Failure; }
      ok := alertas.AppendFuturo(futuroItems.value, build);
      if !ok { return Failure; }
      assert alertas.hoje == BuildAll(hojeItems.value, build).value;
      assert alertas.futuro == BuildAll(futuroItems.value, build).value;
      return Success(alertas);
    }

    /** `for alerta in ...: self.hoje.append(Alerta(alerta))`. On success `hoje` has
        gained one record per element; the loop stops at the first element that fails. */
    method AppendHoje(items: seq<Json>, build: Builder) returns (ok: bool)
      modifies this
      ensures ok <==> BuildAll(items, build).Success?
      ensures ok ==> hoje == old(hoje) + BuildAll(items, build).value
      ensures futuro == old(futuro)
    {
      var i := 0;
      while i < |items|
        invariant 0 <= i <= |items|
        invariant BuildAll(items[..i], build).Success?
        invariant hoje == old(hoje) + BuildAll(items[..i], build).value
        invariant futuro == old(futuro)
      {
        var built := build(items[i]);
        if built.Failure? {
          assert !BuildAll(items, build).Success?;
          return false;
        }
        assert items[..i + 1][..i] == items[..i];
        hoje := hoje + [built.value];
        i := i + 1;
      }
      assert items[..i] == items;
      return true;
    }

    /** `for alerta in ...: self.futuro.append(Alerta(alerta))`, as `AppendHoje`. */
    method AppendFuturo(items: seq<Json>, build: Builder) returns (ok: bool)
      modifies this
      ensures ok <==> BuildAll(items, build).Success?
      ensures ok ==> futuro == old(futuro) + BuildAll(items, build).value
      ensures hoje == old(hoje)
    {
      var i := 0;
      while i < |items|
        invariant 0 <= i <= |items|
        invariant BuildAll(items[..i], build).Success?
        invariant futuro == old(futuro) + BuildAll(items[..i], build).value
        invariant hoje == old(hoje)
      {
        var built := build(items[i]);
        if built.Failure? {
          assert !BuildAll(items, build).Success?;
          return false;
        }
        assert items[..i + 1][..i] == items[..i];
        futuro := futuro + [built.value];
        i := i + 1;
      }
      assert items[..i] == items;
      return true;
    }

    /** `Alertas.__str__`: the header, then one entry per alert of `hoje`; `futuro`
        is not shown. */
    method ToString(lib: Alerta.Library) returns (text: string)
      ensures text == Listing(RenderedAll(lib, hoje))
    {
      ghost var blocks := RenderedAll(lib, hoje);
      text := "hoje: \n";
      var i := 0;
      while i < |hoje|
        invariant 0 <= i <= |hoje|
        invariant text == Listing(blocks[..i])
      {
        var rendered := Alerta.Render(hoje[i], lib);
        ListingSnoc(blocks, i);
        text := text + "  - " + rendered + "\n";
        i := i + 1;
      }
      assert blocks[..i] == blocks;
    }
  }
}
