/** One weather alert (`class Alerta`): its construction from a JSON object and its
    human-readable rendering. */
module Alerta {
  import opened Wrappers
  import opened Json
  import Decimal
  import Text

  // ---------------------------------------------------------------------------
  // Values produced by library calls

  datatype Date = Date(year: int, month: int, day: int)
  datatype Time = Time(hour: int, minute: int, second: int, microsecond: int)
  datatype DateTime = DateTime(date: Date, time: Time)
  datatype Point = Point(longitude: real, latitude: real)
  datatype Polygon = Polygon(rings: seq<seq<Point>>)

  /** The library functions the constructor and the renderer call. Their acceptance
      rules and output formats belong to the Python standard library and shapely, so
      the model takes them as given. A parser returns `None` where it raises. */
  datatype Library = Library(
    parseStamp: string -> Option<DateTime>,   // datetime.strptime(s, "%Y-%m-%dT%H:%M:%S.%fZ")
    parseClock: string -> Option<DateTime>,   // datetime.strptime(s, "%H:%M")
    parsePeriod: string -> Option<DateTime>,  // datetime.strptime(s, "%Y-%m-%d %H:%M")
    decodePolygon: string -> Option<Polygon>, // shape(json.loads(s))
    showDate: Date -> string,                 // str() of a date
    showTime: Time -> string,                 // str() of a time
    showDateTime: DateTime -> string,         // str() of a datetime
    showPolygon: Polygon -> string,           // str() of a shapely geometry
    showComposite: Json -> string)            // str() of a list or dict taken from the JSON

  // ---------------------------------------------------------------------------
  // The record

  /** An attribute value as `vars(self)` holds it. */
  datatype Attr =
    | Plain(json: Json)          // copied from the JSON, or a string the constructor made
    | DateAttr(date: Date)
    | TimeAttr(time: Time)
    | DateTimeAttr(dateTime: DateTime)
    | PolygonAttr(polygon: Polygon)
    | ListAttr(items: seq<Json>) // a Python list the constructor built

  datatype Alerta = Alerta(
    id: Json, idAviso: Json, idSequencia: Json, idCondicaoSevera: Json,
    idIcone: Json, idUsuario: Json, codigo: Json, referencia: Json,
    dataInicio: Date, dataFim: Date, horaInicio: Time, horaFim: Time,
    municipios: seq<string>, microrregioes: seq<string>, mesorregioes: seq<string>,
    estados: seq<string>, regioes: seq<string>, geocodes: seq<string>,
    alterado: Json, encerrado: Json,
    createdAt: DateTime, updatedAt: DateTime, inicio: DateTime, fim: DateTime,
    poligono: Polygon, icone: string,
    descricao: Json, avisoCor: Json, idSeveridade: Json, severidade: Json,
    riscos: seq<Json>, instrucoes: seq<Json>)

  /** Every key the constructor reads. */
  const RequiredKeys: set<string> := {
    "id", "id_aviso", "id_sequencia", "id_condicao_severa", "id_icone", "id_usuario",
    "codigo", "referencia", "data_inicio", "data_fim", "hora_inicio", "hora_fim",
    "municipios", "microrregioes", "mesorregioes", "estados", "regioes", "geocodes",
    "alterado", "encerrado", "created_at", "updated_at", "inicio", "fim",
    "poligono", "icone", "descricao", "aviso_cor", "id_severidade", "severidade",
    "riscos", "instrucoes"}

  /** The keys whose value must be a string: it is parsed, split, decoded or stripped. */
  const TextKeys: set<string> := {
    "data_inicio", "data_fim", "hora_inicio", "hora_fim",
    "municipios", "microrregioes", "mesorregioes", "estados", "regioes", "geocodes",
    "created_at", "updated_at", "inicio", "fim", "poligono", "icone"}

  // ---------------------------------------------------------------------------
  // Construction steps

  /** `alerta_json[key]`: a missing key raises. */
  function Field(j: map<string, Json>, key: string): (r: Result<Json>)
    ensures r.Success? <==> key in j
    ensures r.Success? ==> r.value == j[key]
  {
    if key in j then Success(j[key]) else Failure
  }

  /** A value used as a `str`; anything else raises. */
  function AsText(v: Json): (r: Result<string>)
    ensures r.Success? <==> v.JString?
    ensures r.Success? ==> r.value == v.s
  {
    if v.JString? then Success(v.s) else Failure
  }

  /** `datetime.strptime(alerta_json[key], fmt)`. */
  function ParsedField(j: map<string, Json>, key: string, parse: string -> Option<DateTime>): Result<DateTime>
  {
    var v :- Field(j, key);
    var s :- AsText(v);
    FromOption(parse(s))
  }

  /** `[x for x in alerta_json[key].split(",")]`. */
  function SplitField(j: map<string, Json>, key: string): Result<seq<string>>
  {
    var v :- Field(j, key);
    var s :- AsText(v);
    Success(Text.Split(s, ','))
  }

  /** `list(v)`: a list is copied, a string gives its characters; numbers, booleans
      and null raise. A dict would give its keys; the model has no key order for it,
      so it fails here. */
  function PyList(v: Json): Result<seq<Json>>
  {
    match v
    case JArray(items) => Success(items)
    case JString(s) => Success(Chars(s))
    case _ => Failure
  }

  const DataImage: string := "data:image/"
  const Base64Marker: string := ";base64,"

  /** A header the pattern `^data:image/[^;]+;base64,` matches exactly. */
  predicate IsDataUriHeader(h: string) {
    && |h| > |DataImage| + |Base64Marker|
    && h[..|DataImage|] == DataImage
    && h[|h| - |Base64Marker|..] == Base64Marker
    && forall i | |DataImage| <= i < |h| - |Base64Marker| :: h[i] != ';'
  }

  /** `re.sub(r"^data:image/[^;]+;base64,", "", s)`: the pattern is anchored at the start,
      so it removes at most one header. `[^;]+` cannot cross a `;`, so the header, when
      there is one, ends at the first `;` after `data:image/`. */
  function StripIcon(s: string): (r: string)
    ensures |r| <= |s| && s[|s| - |r|..] == r
    ensures r != s ==> IsDataUriHeader(s[..|s| - |r|])
    ensures r == s ==> forall k | 0 <= k <= |s| :: !IsDataUriHeader(s[..k])
  {
    if |s| < |DataImage| || s[..|DataImage|] != DataImage then
      s
    else
      var semi := Text.IndexOf(s, ';', |DataImage|);
      var end := semi + |Base64Marker|;
      if |DataImage| < semi && end <= |s| && s[semi..end] == Base64Marker then
        assert s[..|s| - |s[end..]|] == s[..end];
        s[end..]
      else
        assert forall k | 0 <= k <= |s| :: !IsDataUriHeader(s[..k]) by {
          forall k | 0 <= k <= |s| && IsDataUriHeader(s[..k]) ensures false {
            HeaderEndsAtFirstSemicolon(s, k);
          }
        }
        s
  }

  /** A header at the front of `s` ends right after the first `;` past `data:image/`. */
  lemma HeaderEndsAtFirstSemicolon(s: string, k: nat)
    requires k <= |s| && IsDataUriHeader(s[..k])
    ensures var semi := Text.IndexOf(s, ';', |DataImage|);
      && semi == k - |Base64Marker|
      && |DataImage| < semi
      && s[semi..k] == Base64Marker
  {
    var h := s[..k];
    var semi := Text.IndexOf(s, ';', |DataImage|);
    assert s[k - |Base64Marker|] == h[|h| - |Base64Marker|..][0] == ';';
    forall i | |DataImage| <= i < k - |Base64Marker| ensures s[i] != ';' {
      assert s[i] == h[i];
    }
    assert s[k - |Base64Marker|..k] == h[|h| - |Base64Marker|..];
  }

  /** A string starts with at most one such header. */
  lemma HeaderUnique(s: string, j: nat, k: nat)
    requires j <= |s| && k <= |s|
    requires IsDataUriHeader(s[..j]) && IsDataUriHeader(s[..k])
    ensures j == k
  {
    HeaderEndsAtFirstSemicolon(s, j);
    HeaderEndsAtFirstSemicolon(s, k);
  }

  /** `re.sub` on `alerta_json["icone"]`, which must be a string. */
  function IconField(j: map<string, Json>): Result<string>
  {
    var v :- Field(j, "icone");
    var s :- AsText(v);
    Success(StripIcon(s))
  }

  /** `shape(json.loads(alerta_json["poligono"]))`. */
  function PolygonField(j: map<string, Json>, lib: Library): Result<Polygon>
  {
    var v :- Field(j, "poligono");
    var s :- AsText(v);
    FromOption(lib.decodePolygon(s))
  }

  /** The string under a key of `TextKeys`. */
  ghost predicate TextAt(j: map<string, Json>, key: string) {
    key in j && j[key].JString?
  }

  ghost predicate ParsesAt(j: map<string, Json>, key: string, parse: string -> Option<DateTime>) {
    TextAt(j, key) && parse(j[key].s).Some?
  }

  ghost predicate ListableAt(j: map<string, Json>, key: string) {
    key in j && (j[key].JArray? || j[key].JString?)
  }

  /** The eight leading attributes (six identifiers, `codigo` and `referencia`), stored as they come. */
  function Identity(j: map<string, Json>): (r: Result<(Json, Json, Json, Json, Json, Json, Json, Json)>)
    ensures r.Success? <==>
      {"id", "id_aviso", "id_sequencia", "id_condicao_severa", "id_icone", "id_usuario",
       "codigo", "referencia"} <= j.Keys
    ensures r.Success? ==> r.value == (j["id"], j["id_aviso"], j["id_sequencia"],
      j["id_condicao_severa"], j["id_icone"], j["id_usuario"], j["codigo"], j["referencia"])
  {
    var id :- Field(j, "id");
    var idAviso :- Field(j, "id_aviso");
    var idSequencia :- Field(j, "id_sequencia");
    var idCondicaoSevera :- Field(j, "id_condicao_severa");
    var idIcone :- Field(j, "id_icone");
    var idUsuario :- Field(j, "id_usuario");
    var codigo :- Field(j, "codigo");
    var referencia :- Field(j, "referencia");
    Success((id, idAviso, idSequencia, idCondicaoSevera, idIcone, idUsuario, codigo, referencia))
  }

  /** `data_inicio`, `data_fim` (dates of a timestamp) and `hora_inicio`, `hora_fim`
      (times of a clock reading), in the order the constructor parses them. */
  function Schedule(j: map<string, Json>, lib: Library): (r: Result<(Date, Date, Time, Time)>)
    ensures r.Success? <==>
      && ParsesAt(j, "data_inicio", lib.parseStamp) && ParsesAt(j, "data_fim", lib.parseStamp)
      && ParsesAt(j, "hora_inicio", lib.parseClock) && ParsesAt(j, "hora_fim", lib.parseClock)
  {
    var dataInicio :- ParsedField(j, "data_inicio", lib.parseStamp);
    var dataFim :- ParsedField(j, "data_fim", lib.parseStamp);
    var horaInicio :- ParsedField(j, "hora_inicio", lib.parseClock);
    var horaFim :- ParsedField(j, "hora_fim", lib.parseClock);
    Success((dataInicio.date, dataFim.date, horaInicio.time, horaFim.time))
  }

  /** The six comma-separated region lists. */
  function Regions(j: map<string, Json>): (r: Result<(seq<string>, seq<string>, seq<string>, seq<string>, seq<string>, seq<string>)>)
    ensures r.Success? <==>
      && TextAt(j, "municipios") && TextAt(j, "microrregioes") && TextAt(j, "mesorregioes")
      && TextAt(j, "estados") && TextAt(j, "regioes") && TextAt(j, "geocodes")
  {
    var municipios :- SplitField(j, "municipios");
    var microrregioes :- SplitField(j, "microrregioes");
    var mesorregioes :- SplitField(j, "mesorregioes");
    var estados :- SplitField(j, "estados");
    var regioes :- SplitField(j, "regioes");
    var geocodes :- SplitField(j, "geocodes");
    Success((municipios, microrregioes, mesorregioes, estados, regioes, geocodes))
  }

  /** `created_at`, `updated_at` (timestamps) and `inicio`, `fim` (period bounds). */
  function Stamps(j: map<string, Json>, lib: Library): (r: Result<(DateTime, DateTime, DateTime, DateTime)>)
    ensures r.Success? <==>
      && ParsesAt(j, "created_at", lib.parseStamp) && ParsesAt(j, "updated_at", lib.parseStamp)
      && ParsesAt(j, "inicio", lib.parsePeriod) && ParsesAt(j, "fim", lib.parsePeriod)
  {
    var createdAt :- ParsedField(j, "created_at", lib.parseStamp);
    var updatedAt :- ParsedField(j, "updated_at", lib.parseStamp);
    var inicio :- ParsedField(j, "inicio", lib.parsePeriod);
    var fim :- ParsedField(j, "fim", lib.parsePeriod);
    Success((createdAt, updatedAt, inicio, fim))
  }

  /** The four severity attributes, stored as they come. */
  function Severity(j: map<string, Json>): (r: Result<(Json, Json, Json, Json)>)
    ensures r.Success? <==> {"descricao", "aviso_cor", "id_severidade", "severidade"} <= j.Keys
    ensures r.Success? ==> r.value == (j["descricao"], j["aviso_cor"], j["id_severidade"], j["severidade"])
  {
    var descricao :- Field(j, "descricao");
    var avisoCor :- Field(j, "aviso_cor");
    var idSeveridade :- Field(j, "id_severidade");
    var severidade :- Field(j, "severidade");
    Success((descricao, avisoCor, idSeveridade, severidade))
  }

  /** `list(alerta_json[key])`. */
  function ListField(j: map<string, Json>, key: string): (r: Result<seq<Json>>)
    ensures r.Success? <==> ListableAt(j, key)
    ensures r.Success? && j[key].JArray? ==> r.value == j[key].items
    ensures r.Success? && j[key].JString? ==>
      && |r.value| == |j[key].s|
      && forall i | 0 <= i < |r.value| :: r.value[i] == JString([j[key].s[i]])
  {
    var v :- Field(j, key);
    PyList(v)
  }

  /** What the constructor needs of its input: every key present, a string wherever
      the value is parsed, split, decoded or stripped, every library parse succeeding,
      and a list or string for `riscos` and `instrucoes`. The other values are not
      looked at. */
  ghost predicate Accepted(j: map<string, Json>, lib: Library) {
    && {"id", "id_aviso", "id_sequencia", "id_condicao_severa", "id_icone", "id_usuario",
        "codigo", "referencia"} <= j.Keys
    && ParsesAt(j, "data_inicio", lib.parseStamp) && ParsesAt(j, "data_fim", lib.parseStamp)
    && ParsesAt(j, "hora_inicio", lib.parseClock) && ParsesAt(j, "hora_fim", lib.parseClock)
    && TextAt(j, "municipios") && TextAt(j, "microrregioes") && TextAt(j, "mesorregioes")
    && TextAt(j, "estados") && TextAt(j, "regioes") && TextAt(j, "geocodes")
    && "alterado" in j && "encerrado" in j
    && ParsesAt(j, "created_at", lib.parseStamp) && ParsesAt(j, "updated_at", lib.parseStamp)
    && ParsesAt(j, "inicio", lib.parsePeriod) && ParsesAt(j, "fim", lib.parsePeriod)
    && TextAt(j, "poligono") && lib.decodePolygon(j["poligono"].s).Some?
    && TextAt(j, "icone")
    && {"descricao", "aviso_cor", "id_severidade", "severidade"} <= j.Keys
    && ListableAt(j, "riscos") && ListableAt(j, "instrucoes")
  }

  /** In short: an accepted object holds every key the constructor reads, and a string
      under every key whose value is parsed, split, decoded or stripped. */
  lemma AcceptedNeedsKeysAndText(j: map<string, Json>, lib: Library)
    requires Accepted(j, lib)
    ensures RequiredKeys <= j.Keys
    ensures forall k | k in TextKeys :: TextAt(j, k)
  {
  }

  /** `Alerta.__init__`: reads every key in turn; the first failing step aborts the
      whole record. */
  function FromJson(j: map<string, Json>, lib: Library): (r: Result<Alerta>)
    ensures r.Success? <==> Accepted(j, lib)
  {
    var (id, idAviso, idSequencia, idCondicaoSevera, idIcone, idUsuario, codigo, referencia) :- Identity(j);
    var (dataInicio, dataFim, horaInicio, horaFim) :- Schedule(j, lib);
    var (municipios, microrregioes, mesorregioes, estados, regioes, geocodes) :- Regions(j);
    var alterado :- Field(j, "alterado");
    var encerrado :- Field(j, "encerrado");
    var (createdAt, updatedAt, inicio, fim) :- Stamps(j, lib);
    var poligono :- PolygonField(j, lib);
    var icone :- IconField(j);
    var (descricao, avisoCor, idSeveridade, severidade) :- Severity(j);
    var riscos :- ListField(j, "riscos");
    var instrucoes :- ListField(j, "instrucoes");
    Success(Alerta(
      id, idAviso, idSequencia, idCondicaoSevera, idIcone, idUsuario, codigo, referencia,
      dataInicio, dataFim, horaInicio, horaFim,
      municipios, microrregioes, mesorregioes, estados, regioes, geocodes,
      alterado, encerrado, createdAt, updatedAt, inicio, fim,
      poligono, icone, descricao, avisoCor, idSeveridade, severidade, riscos, instrucoes))
  }

  /** `Alerta.__init__` as it runs: the attributes are read and assigned in source
      order, and the first step that raises abandons the object. */
  method Construct(j: map<string, Json>, lib: Library) returns (r: Result<Alerta>)
    ensures r == FromJson(j, lib)
  {
    var identity :- Identity(j);
    var schedule :- Schedule(j, lib);
    var regions :- Regions(j);
    var alterado :- Field(j, "alterado");
    var encerrado :- Field(j, "encerrado");
    var stamps :- Stamps(j, lib);
    var poligono :- PolygonField(j, lib);
    var icone :- IconField(j);
    var severity :- Severity(j);
    var riscos :- ListField(j, "riscos");
    var instrucoes :- ListField(j, "instrucoes");
    r := Success(Alerta(
      identity.0, identity.1, identity.2, identity.3,
      identity.4, identity.5, identity.6, identity.7,
      schedule.0, schedule.1, schedule.2, schedule.3,
      regions.0, regions.1, regions.2, regions.3, regions.4, regions.5,
      alterado, encerrado, stamps.0, stamps.1, stamps.2, stamps.3,
      poligono, icone, severity.0, severity.1, severity.2, severity.3, riscos, instrucoes));
  }

  /** A missing key always fails construction. */
  lemma MissingKeyFails(j: map<string, Json>, lib: Library, key: string)
    requires key in RequiredKeys && key !in j
    ensures FromJson(j, lib).Failure?
  {
    if FromJson(j, lib).Success? {
      AcceptedNeedsKeysAndText(j, lib);
    }
  }

  /** Field-level round trip: each attribute is the input value stored as it came,
      the library's parse of the input string, the comma split of the input string,
      the stripped icon, or `list()` of the input: the input list itself, or the
      one-character strings of the input string. */
  lemma FieldsRoundTrip(j: map<string, Json>, lib: Library)
    requires FromJson(j, lib).Success?
    ensures var a := FromJson(j, lib).value;
      && a.id == j["id"] && a.idAviso == j["id_aviso"] && a.idSequencia == j["id_sequencia"]
      && a.idCondicaoSevera == j["id_condicao_severa"] && a.idIcone == j["id_icone"]
      && a.idUsuario == j["id_usuario"] && a.codigo == j["codigo"] && a.referencia == j["referencia"]
      && a.alterado == j["alterado"] && a.encerrado == j["encerrado"]
      && a.descricao == j["descricao"] && a.avisoCor == j["aviso_cor"]
      && a.idSeveridade == j["id_severidade"] && a.severidade == j["severidade"]
      && a.dataInicio == lib.parseStamp(j["data_inicio"].s).value.date
      && a.dataFim == lib.parseStamp(j["data_fim"].s).value.date
      && a.horaInicio == lib.parseClock(j["hora_inicio"].s).value.time
      && a.horaFim == lib.parseClock(j["hora_fim"].s).value.time
      && a.createdAt == lib.parseStamp(j["created_at"].s).value
      && a.updatedAt == lib.parseStamp(j["updated_at"].s).value
      && a.inicio == lib.parsePeriod(j["inicio"].s).value
      && a.fim == lib.parsePeriod(j["fim"].s).value
      && a.municipios == Text.Split(j["municipios"].s, ',')
      && a.microrregioes == Text.Split(j["microrregioes"].s, ',')
      && a.mesorregioes == Text.Split(j["mesorregioes"].s, ',')
      && a.estados == Text.Split(j["estados"].s, ',')
      && a.regioes == Text.Split(j["regioes"].s, ',')
      && a.geocodes == Text.Split(j["geocodes"].s, ',')
      && a.poligono == lib.decodePolygon(j["poligono"].s).value
      && a.icone == StripIcon(j["icone"].s)
      && a.riscos == (if j["riscos"].JArray? then j["riscos"].items else Chars(j["riscos"].s))
      && a.instrucoes == (if j["instrucoes"].JArray? then j["instrucoes"].items else Chars(j["instrucoes"].s))
  {
  }

  /** The six region lists join back, with `","`, to the strings they were split from,
      and none of their pieces contains a comma. */
  lemma RegionsRoundTrip(j: map<string, Json>, lib: Library)
    requires FromJson(j, lib).Success?
    ensures var a := FromJson(j, lib).value;
      && Text.Join(",", a.municipios) == j["municipios"].s
      && Text.Join(",", a.microrregioes) == j["microrregioes"].s
      && Text.Join(",", a.mesorregioes) == j["mesorregioes"].s
      && Text.Join(",", a.estados) == j["estados"].s
      && Text.Join(",", a.regioes) == j["regioes"].s
      && Text.Join(",", a.geocodes) == j["geocodes"].s
      && forall piece | piece in a.municipios + a.microrregioes + a.mesorregioes
                                 + a.estados + a.regioes + a.geocodes :: ',' !in piece
  {
    var a := FromJson(j, lib).value;
    assert a.municipios == Text.Split(j["municipios"].s, ',');
    assert a.microrregioes == Text.Split(j["microrregioes"].s, ',');
    assert a.mesorregioes == Text.Split(j["mesorregioes"].s, ',');
    assert a.estados == Text.Split(j["estados"].s, ',');
    assert a.regioes == Text.Split(j["regioes"].s, ',');
    assert a.geocodes == Text.Split(j["geocodes"].s, ',');
    Text.JoinSplit(j["municipios"].s, ',');
    Text.JoinSplit(j["microrregioes"].s, ',');
    Text.JoinSplit(j["mesorregioes"].s, ',');
    Text.JoinSplit(j["estados"].s, ',');
    Text.JoinSplit(j["regioes"].s, ',');
    Text.JoinSplit(j["geocodes"].s, ',');
    Text.SplitPiecesFree(j["municipios"].s, ',');
    Text.SplitPiecesFree(j["microrregioes"].s, ',');
    Text.SplitPiecesFree(j["mesorregioes"].s, ',');
    Text.SplitPiecesFree(j["estados"].s, ',');
    Text.SplitPiecesFree(j["regioes"].s, ',');
    Text.SplitPiecesFree(j["geocodes"].s, ',');
  }

  // ---------------------------------------------------------------------------
  // Rendering

  /** `str(v)` of a value taken from the JSON. */
  function PyStr(lib: Library, v: Json): (s: string)
    ensures v.JString? ==> s == v.s
    ensures v.JNull? ==> s == "None"
    ensures v.JBool? ==> s == (if v.b then "True" else "False")
    ensures v.JInt? ==> |s| >= 1 && (Decimal.AllDigits(s) <==> v.i >= 0)
  {
    match v
    case JNull => "None"
    case JBool(b) => if b then "True" else "False"
    case JInt(i) => Decimal.ShowInt(i)
    case JString(s) => s
    case _ => lib.showComposite(v)
  }

  /** `str(value)` of an attribute. */
  function AttrStr(lib: Library, value: Attr): (s: string)
    ensures value.Plain? ==> s == PyStr(lib, value.json)
    ensures value.DateAttr? ==> s == lib.showDate(value.date)
    ensures value.TimeAttr? ==> s == lib.showTime(value.time)
    ensures value.DateTimeAttr? ==> s == lib.showDateTime(value.dateTime)
    ensures value.PolygonAttr? ==> s == lib.showPolygon(value.polygon)
    ensures value.ListAttr? ==> s == lib.showComposite(JArray(value.items))
  {
    match value
    case Plain(v) => PyStr(lib, v)
    case DateAttr(d) => lib.showDate(d)
    case TimeAttr(t) => lib.showTime(t)
    case DateTimeAttr(dt) => lib.showDateTime(dt)
    case PolygonAttr(p) => lib.showPolygon(p)
    case ListAttr(items) => lib.showComposite(JArray(items))
  }

  /** `str()` of an integer is its sign followed by its decimal numeral: the digits
      denote the number, or its magnitude when it is negative. */
  lemma PyStrIntValue(lib: Library, i: int)
    ensures var s := PyStr(lib, JInt(i));
      && (i >= 0 ==> Decimal.AllDigits(s) && Decimal.Value(s) == i)
      && (i < 0 ==> s == "-" + Decimal.Show(-i) && Decimal.AllDigits(s[1..]) && Decimal.Value(s[1..]) == -i)
  {
    if i >= 0 {
      Decimal.ValueOfShow(i);
    } else {
      Decimal.ValueOfShow(-i);
      assert ("-" + Decimal.Show(-i))[1..] == Decimal.Show(-i);
    }
  }

  /** `isinstance(value, list)`, with the list's items. */
  function AsList(value: Attr): (r: Option<seq<Json>>)
    ensures r.Some? <==> value.ListAttr? || (value.Plain? && value.json.JArray?)
    ensures value.ListAttr? ==> r == Some(value.items)
    ensures value.Plain? && value.json.JArray? ==> r == Some(value.json.items)
  {
    match value
    case ListAttr(items) => Some(items)
    case Plain(JArray(items)) => Some(items)
    case _ => None
  }

  /** The first five items, `value[:5]`. */
  function FirstFive(items: seq<Json>): (r: seq<Json>)
    ensures |r| == if |items| < 5 then |items| else 5
    ensures r == items[..|r|]
  {
    if |items| < 5 then items else items[..5]
  }

  function ShowAll(lib: Library, items: seq<Json>): (r: seq<string>)
    ensures |r| == |items|
    ensures forall i | 0 <= i < |items| :: r[i] == PyStr(lib, items[i])
  {
    if items == [] then [] else [PyStr(lib, items[0])] + ShowAll(lib, items[1..])
  }

  /** A newline followed by the eight-space indent of a list item. */
  const ItemIndent: string := "\n        "
  /** What `__str__` puts after every attribute: a newline and a four-space indent. */
  const EntryEnd: string := "\n    "

  /** `format_value(key, value)`. */
  function FormatValue(lib: Library, key: string, value: Attr): (text: string)
    ensures |text| >= |key| + 2 && text[..|key| + 2] == key + ": "
  {
    match AsList(value)
    case Some(items) => key + ": " + ItemIndent + Text.Join(ItemIndent, ShowAll(lib, FirstFive(items)))
    case None => key + ": " + AttrStr(lib, value)
  }

  /** A list shows a header and then one indented line for each of its first five
      items (just the indent when it is empty); any other value follows the key on
      the same line. */
  lemma FormatValueShape(lib: Library, key: string, value: Attr)
    ensures match AsList(value)
      case Some(items) =>
        FormatValue(lib, key, value) == key + ": " +
          (if items == [] then ItemIndent else Text.Prefixed(ItemIndent, ShowAll(lib, FirstFive(items))))
      case None =>
        FormatValue(lib, key, value) == key + ": " + AttrStr(lib, value)
  {
    match AsList(value)
    case Some(items) =>
      if items != [] {
        Text.JoinAsPrefixed(ItemIndent, ShowAll(lib, FirstFive(items)));
      }
    case None =>
  }

  /** Items past the fifth never reach the output. */
  lemma FormatValueShowsFirstFive(lib: Library, key: string, value: Attr, other: Attr)
    requires AsList(value).Some? && AsList(other).Some?
    requires FirstFive(AsList(value).value) == FirstFive(AsList(other).value)
    ensures FormatValue(lib, key, value) == FormatValue(lib, key, other)
  {
  }

  /** `vars(self)`: the attributes in the order `__init__` assigns them. The polygon
      and the icon come 25th and 26th. */
  function Vars(a: Alerta): (entries: seq<(string, Attr)>)
    ensures |entries| == 32
    ensures entries[24] == ("poligono", PolygonAttr(a.poligono))
    ensures entries[25] == ("icone", Plain(JString(a.icone)))
  {
    Leading(a) + [("poligono", PolygonAttr(a.poligono)), ("icone", Plain(JString(a.icone)))]
      + Trailing(a)
  }

  /** The 24 attributes assigned before the polygon. */
  function Leading(a: Alerta): (entries: seq<(string, Attr)>)
    ensures |entries| == 24
  {
    [ ("id", Plain(a.id)), ("id_aviso", Plain(a.idAviso)),
      ("id_sequencia", Plain(a.idSequencia)), ("id_condicao_severa", Plain(a.idCondicaoSevera)),
      ("id_icone", Plain(a.idIcone)), ("id_usuario", Plain(a.idUsuario)),
      ("codigo", Plain(a.codigo)), ("referencia", Plain(a.referencia)),
      ("data_inicio", DateAttr(a.dataInicio)), ("data_fim", DateAttr(a.dataFim)),
      ("hora_inicio", TimeAttr(a.horaInicio)), ("hora_fim", TimeAttr(a.horaFim)),
      ("municipios", ListAttr(Strings(a.municipios))),
      ("microrregioes", ListAttr(Strings(a.microrregioes))),
      ("mesorregioes", ListAttr(Strings(a.mesorregioes))),
      ("estados", ListAttr(Strings(a.estados))),
      ("regioes", ListAttr(Strings(a.regioes))),
      ("geocodes", ListAttr(Strings(a.geocodes))),
      ("alterado", Plain(a.alterado)), ("encerrado", Plain(a.encerrado)),
      ("created_at", DateTimeAttr(a.createdAt)), ("updated_at", DateTimeAttr(a.updatedAt)),
      ("inicio", DateTimeAttr(a.inicio)), ("fim", DateTimeAttr(a.fim)) ]
  }

  /** The six attributes assigned after the icon. */
  function Trailing(a: Alerta): (entries: seq<(string, Attr)>)
    ensures |entries| == 6
  {
    [ ("descricao", Plain(a.descricao)), ("aviso_cor", Plain(a.avisoCor)),
      ("id_severidade", Plain(a.idSeveridade)), ("severidade", Plain(a.severidade)),
      ("riscos", ListAttr(a.riscos)), ("instrucoes", ListAttr(a.instrucoes)) ]
  }

  function Strings(pieces: seq<string>): (r: seq<Json>)
    ensures |r| == |pieces|
    ensures forall i | 0 <= i < |pieces| :: r[i] == JString(pieces[i])
  {
    seq(|pieces|, i requires 0 <= i < |pieces| => JString(pieces[i]))
  }

  /** The two attributes `__str__` leaves out. */
  predicate Hidden(key: string) {
    key == "icone" || key == "poligono"
  }

  /** The entries `__str__` renders, in order. */
  function Shown(entries: seq<(string, Attr)>): seq<(string, Attr)>
  {
    if entries == [] then []
    else
      var last := entries[|entries| - 1];
      Shown(entries[..|entries| - 1]) + (if Hidden(last.0) then [] else [last])
  }

  /** One `format_value` line per entry, each followed by `EntryEnd`. */
  function Lines(lib: Library, entries: seq<(string, Attr)>): string
  {
    if entries == [] then ""
    else
      var last := entries[|entries| - 1];
      Lines(lib, entries[..|entries| - 1]) + FormatValue(lib, last.0, last.1) + EntryEnd
  }

  /** What `__str__` returns. */
  function Rendered(lib: Library, a: Alerta): string
  {
    Lines(lib, Shown(Vars(a)))
  }

  /** `Alerta.__str__`: walks `vars(self)` in order, skipping `icone` and `poligono`,
      and appends each `format_value` line. */
  method Render(a: Alerta, lib: Library) returns (text: string)
    ensures text == Rendered(lib, a)
  {
    text := RenderEntries(lib, Vars(a));
  }

  /** The loop of `__str__` over a list of attribute entries. */
  method RenderEntries(lib: Library, entries: seq<(string, Attr)>) returns (text: string)
    ensures text == Lines(lib, Shown(entries))
  {
    text := "";
    var i := 0;
    while i < |entries|
      invariant 0 <= i <= |entries|
      invariant text == Lines(lib, Shown(entries[..i]))
    {
      var entry := entries[i];
      RenderStep(lib, entries, i);
      if !Hidden(entry.0) {
        text := text + FormatValue(lib, entry.0, entry.1) + EntryEnd;
      }
      i := i + 1;
    }
    assert entries[..i] == entries;
  }

  /** One turn of the `__str__` loop extends the rendering by the entry's line,
      unless the entry is hidden. */
  lemma RenderStep(lib: Library, entries: seq<(string, Attr)>, i: nat)
    requires i < |entries|
    ensures Lines(lib, Shown(entries[..i + 1])) ==
      if Hidden(entries[i].0) then Lines(lib, Shown(entries[..i]))
      else Lines(lib, Shown(entries[..i])) + FormatValue(lib, entries[i].0, entries[i].1) + EntryEnd
  {
    var entry := entries[i];
    ShownSnoc(entries[..i], entry);
    assert entries[..i] + [entry] == entries[..i + 1];
    if Hidden(entry.0) {
      assert Shown(entries[..i + 1]) == Shown(entries[..i]) + [];
      assert Shown(entries[..i]) + [] == Shown(entries[..i]);
    } else {
      LinesSnoc(lib, Shown(entries[..i]), entry);
    }
  }

  lemma ShownSnoc(xs: seq<(string, Attr)>, e: (string, Attr))
    ensures Shown(xs + [e]) == Shown(xs) + (if Hidden(e.0) then [] else [e])
  {
    assert (xs + [e])[..|xs|] == xs;
  }

  lemma LinesSnoc(lib: Library, xs: seq<(string, Attr)>, e: (string, Attr))
    ensures Lines(lib, xs + [e]) == Lines(lib, xs) + FormatValue(lib, e.0, e.1) + EntryEnd
  {
    assert (xs + [e])[..|xs|] == xs;
  }

  lemma {:induction false} ShownAppend(xs: seq<(string, Attr)>, ys: seq<(string, Attr)>)
    ensures Shown(xs + ys) == Shown(xs) + Shown(ys)
    decreases |ys|
  {
    if ys == [] {
      assert xs + ys == xs;
    } else {
      assert (xs + ys)[..|xs + ys| - 1] == xs + ys[..|ys| - 1];
      ShownAppend(xs, ys[..|ys| - 1]);
    }
  }

  lemma {:induction false} ShownKeepsVisible(xs: seq<(string, Attr)>)
    requires forall i | 0 <= i < |xs| :: !Hidden(xs[i].0)
    ensures Shown(xs) == xs
    decreases |xs|
  {
    if xs != [] {
      ShownKeepsVisible(xs[..|xs| - 1]);
    }
  }

  lemma LeadingVisible(a: Alerta)
    ensures forall i | 0 <= i < 24 :: !Hidden(Leading(a)[i].0)
  {
  }

  lemma TrailingVisible(a: Alerta)
    ensures forall i | 0 <= i < 6 :: !Hidden(Trailing(a)[i].0)
  {
  }

  /** `__str__` renders exactly the attributes other than `poligono` and `icone`,
      in assignment order. */
  lemma ShownIsAllButIconAndPolygon(a: Alerta)
    ensures Shown(Vars(a)) == Vars(a)[..24] + Vars(a)[26..]
    ensures forall e | e in Shown(Vars(a)) :: !Hidden(e.0)
  {
    var lead, trail := Leading(a), Trailing(a);
    var hidden := [("poligono", PolygonAttr(a.poligono)), ("icone", Plain(JString(a.icone)))];
    ShownAppend(lead + hidden, trail);
    ShownAppend(lead, hidden);
    LeadingVisible(a);
    TrailingVisible(a);
    ShownKeepsVisible(lead);
    ShownKeepsVisible(trail);
    assert Shown(hidden) == [] by {
      assert hidden[..1] == [hidden[0]];
      assert Shown([hidden[0]]) == Shown([]) + [];
    }
    assert Vars(a)[..24] == lead;
    assert Vars(a)[26..] == trail;
  }

  /** The rendering does not depend on the icon or the polygon. */
  lemma RenderIgnoresIconAndPolygon(lib: Library, a: Alerta, icone: string, poligono: Polygon)
    ensures Rendered(lib, a) == Rendered(lib, a.(icone := icone, poligono := poligono))
  {
    var b := a.(icone := icone, poligono := poligono);
    ShownIsAllButIconAndPolygon(a);
    ShownIsAllButIconAndPolygon(b);
    assert Leading(a) == Leading(b);
    assert Trailing(a) == Trailing(b);
    assert Vars(a)[..24] == Leading(a);
    assert Vars(b)[..24] == Leading(b);
    assert Vars(a)[26..] == Trailing(a);
    assert Vars(b)[26..] == Trailing(b);
  }
}
