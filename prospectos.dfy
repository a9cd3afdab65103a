/**
 * The raw-prospect module: Chilean mobile-number normalisation, the sort and
 * filter clauses of the prospect list, and the activation of prospects into
 * the leads table (urgency to intent level, experience to a number, the
 * counters and the response message).
 */
module Prospects {
  import opened Common

  // ---------------------------------------------------------------------
  // normalize_phone
  // ---------------------------------------------------------------------

  /** `re.sub(r'[^0-9]', '', str(phone).strip())` */
  function PhoneDigits(phone: string): (d: string)
    ensures AllDigits(d)
  {
    Filter(Strip(phone), IsDigit)
  }

  /** The canonical form 569XXXXXXXX. */
  predicate MobileForm(s: string)
  {
    |s| == 11 && StartsWith(s, "569") && AllDigits(s)
  }

  /** The last two tests of normalize_phone, on the digits left after the country code. */
  function Canonical(local: string): (r: Option<string>)
    requires AllDigits(local)
    ensures r.Some? ==> MobileForm(r.value)
  {
    if StartsWith(local, "9") && |local| == 9 then
      assert ("56" + local)[..3] == "56" + local[..1];
      Some("56" + local)
    else if |local| == 8 then
      assert ("569" + local)[..3] == "569";
      Some("569" + local)
    else None
  }

  /** normalize_phone as written: one leading "56" is always stripped. */
  function NormalizePhoneAsWritten(phone: Option<string>): (r: Option<string>)
    ensures r.Some? ==> MobileForm(r.value)
  {
    if phone.None? || phone.value == "" then None
    else
      var d := PhoneDigits(phone.value);
      Canonical(if StartsWith(d, "56") then d[2..] else d)
  }

  /**
   * normalize_phone with the country code stripped only when at least eight
   * digits remain, so that an eight-digit number that happens to begin with
   * 56 still gets the 569 prefix.
   */
  function NormalizePhone(phone: Option<string>): (r: Option<string>)
    ensures r.Some? ==> MobileForm(r.value)
  {
    if phone.None? || phone.value == "" then None
    else
      var d := PhoneDigits(phone.value);
      Canonical(if StartsWith(d, "56") && |d| >= 10 then d[2..] else d)
  }

  /** A string of digits is its own digit string. */
  lemma DigitsOfDigits(s: string)
    requires AllDigits(s)
    ensures PhoneDigits(s) == s
  {
    if s != [] {
      assert !IsSpace(s[0]) && !IsSpace(s[|s| - 1]);
    }
    StripUnchanged(s);
    FilterAll(s, IsDigit);
  }

  /** A canonical number normalises to itself, so normalising twice changes nothing. */
  lemma NormalizePhoneIdempotent(phone: Option<string>)
    ensures NormalizePhone(phone).Some? ==> NormalizePhone(NormalizePhone(phone)) == NormalizePhone(phone)
    ensures NormalizePhoneAsWritten(phone).Some? ==>
              NormalizePhoneAsWritten(NormalizePhoneAsWritten(phone)) == NormalizePhoneAsWritten(phone)
  {
    if NormalizePhone(phone).Some? {
      CanonicalIsFixed(NormalizePhone(phone).value);
    }
    if NormalizePhoneAsWritten(phone).Some? {
      CanonicalIsFixed(NormalizePhoneAsWritten(phone).value);
    }
  }

  lemma CanonicalIsFixed(s: string)
    requires MobileForm(s)
    ensures NormalizePhone(Some(s)) == Some(s)
    ensures NormalizePhoneAsWritten(Some(s)) == Some(s)
  {
    DigitsOfDigits(s);
    assert s[..2] == "56";
    assert s[2..][..1] == "9";
    assert "56" + s[2..] == s;
  }

  /** An eight-digit number is the subscriber part: it gets the 569 prefix. */
  lemma EightDigitsGetPrefix(x: string)
    requires |x| == 8 && AllDigits(x)
    ensures NormalizePhone(Some(x)) == Some("569" + x)
  {
    DigitsOfDigits(x);
  }

  /**
   * As written, an eight-digit number that begins with 56, such as 56123456,
   * is refused: its "56" is taken for the country code and six digits remain.
   */
  lemma EightDigitsRefusedAsWritten(x: string)
    requires |x| == 8 && AllDigits(x) && StartsWith(x, "56")
    ensures NormalizePhoneAsWritten(Some(x)) == None
    ensures NormalizePhone(Some(x)) == Some("569" + x)
  {
    DigitsOfDigits(x);
    assert |x[2..]| == 6;
  }

  /** The two versions differ only on eight- and nine-digit strings that begin with 56. */
  lemma NormalizePhoneAgrees(phone: Option<string>)
    requires phone.Some? ==> var d := PhoneDigits(phone.value); !(StartsWith(d, "56") && |d| < 10)
    ensures NormalizePhone(phone) == NormalizePhoneAsWritten(phone)
  {
  }

  // ---------------------------------------------------------------------
  // list_prospectos: sort and filter clauses
  // ---------------------------------------------------------------------

  const SortColumns: seq<string> :=
    ["nombre", "apellidos", "email_1", "telefono_1", "programa", "propietario", "fecha_creacion", "created_at"]

  /** The requested sort column if whitelisted, else created_at. */
  function SortColumn(column: string): (r: string)
    ensures r in SortColumns
    ensures r == column <==> column in SortColumns
  {
    if column in SortColumns then column else "created_at"
  }

  /** The requested order if it is ASC or DESC in any case, else DESC; the text is passed on as given. */
  function SortOrder(order: string): (r: string)
    ensures Upper(r) == "ASC" || Upper(r) == "DESC"
    ensures r == order <==> Upper(order) == "ASC" || Upper(order) == "DESC"
  {
    if Upper(order) == "ASC" || Upper(order) == "DESC" then order else "DESC"
  }

  /** The columns a filter may come from. */
  const FilterColumns: seq<string> := ["nombre", "apellidos", "email_1", "telefono_1", "programa", "propietario"]

  /** A filter's parsed value: a JSON array of values (null as None) or anything else, which is ignored. */
  datatype FilterValue = ListValue(items: seq<Option<string>>) | OtherValue

  /** Prospects already in the leads table are excluded from the list. */
  const NotActivated: string :=
    "NOT EXISTS (SELECT 1 " + "FROM leads WHERE " + "leads.telefono = " + "prospectos_raw.telefono_1)"

  /** `','.join(['%s'] * n)` */
  function PlaceholderList(n: nat): (r: string)
  {
    if n == 0 then "" else if n == 1 then "%s" else "%s," + PlaceholderList(n - 1)
  }

  function NonNull(items: seq<Option<string>>): (r: seq<string>)
    ensures |r| <= |items|
    ensures forall v :: v in r <==> Some(v) in items
  {
    if items == [] then []
    else (if items[0].Some? then [items[0].value] else []) + NonNull(items[1..])
  }

  /** The clause and the parameters one list filter adds. */
  datatype Clause = Clause(text: string, params: seq<string>)

  function ListClause(column: string, items: seq<Option<string>>): (c: Clause)
  {
    if None in items then
      var values := NonNull(items);
      if values != [] then
        Clause("(" + column + " IN (" + PlaceholderList(|values|) + ") OR " + column + " IS NULL)", values)
      else Clause(column + " IS NULL", [])
    else Clause(column + " IN (" + PlaceholderList(|items|) + ")", NonNull(items))
  }

  /** The clauses and parameters after the given filters, in order, starting from the exclusion clause. */
  function FilterClauses(filters: seq<(string, FilterValue)>): (c: Clause)
  {
    if filters == [] then Clause(NotActivated, [])
    else
      var prev := FilterClauses(filters[..|filters| - 1]);
      match filters[|filters| - 1]
      case (column, ListValue(items)) =>
        var added := ListClause(column, items);
        Clause(prev.text + " AND " + added.text, prev.params + added.params)
      case (_, OtherValue) => prev
  }

  /** The filter loop of list_prospectos, with the clauses joined by AND as the query does. */
  method BuildFilterWhere(filters: seq<(string, FilterValue)>) returns (whereSql: string, params: seq<string>)
    ensures Clause(whereSql, params) == FilterClauses(filters)
  {
    var clauses := [NotActivated];
    params := [];
    var i := 0;
    while i < |filters|
      invariant i <= |filters|
      invariant clauses != [] && Clause(Join(" AND ", clauses), params) == FilterClauses(filters[..i])
    {
      assert filters[..i + 1][..i] == filters[..i];
      var (column, value) := filters[i];
      if value.ListValue? {
        var added := ListClause(column, value.items);
        JoinAppend(" AND ", clauses, added.text);
        clauses := clauses + [added.text];
        params := params + added.params;
      }
      i := i + 1;
    }
    assert filters[..i] == filters;
    whereSql := Join(" AND ", clauses);
  }

  lemma {:induction false} JoinAppend(sep: string, parts: seq<string>, last: string)
    requires parts != []
    ensures Join(sep, parts + [last]) == Join(sep, parts) + sep + last
  {
    if |parts| == 1 {
      assert (parts + [last])[1..] == [last];
    } else {
      assert (parts + [last])[1..] == parts[1..] + [last];
      JoinAppend(sep, parts[1..], last);
    }
  }

  // ---------------------------------------------------------------------
  // One placeholder per parameter
  // ---------------------------------------------------------------------

  lemma {:induction false} PlaceholderListCount(n: nat)
    ensures Placeholders(PlaceholderList(n)) == n
    ensures PlaceholderList(n) == [] || PlaceholderList(n)[|PlaceholderList(n)| - 1] == 's'
  {
    if n > 1 {
      PlaceholderListCount(n - 1);
      PlaceholdersConcat("%s,", PlaceholderList(n - 1));
    }
  }

  predicate ColumnsOk(filters: seq<(string, FilterValue)>)
  {
    forall k :: 0 <= k < |filters| ==> filters[k].0 in FilterColumns
  }

  lemma NotActivatedPlain()
    ensures NoPercent(NotActivated)
  {
    assert NoPercent("NOT EXISTS (SELECT 1 ") && NoPercent("FROM leads WHERE ");
    assert NoPercent("leads.telefono = ") && NoPercent("prospectos_raw.telefono_1)");
  }

  lemma FilterColumnsPlain(column: string)
    requires column in FilterColumns
    ensures NoPercent(column) && column != []
  {
  }

  /** One list filter adds exactly as many "%s" as parameters, and its text does not end in '%'. */
  lemma ListClausePlaceholders(column: string, items: seq<Option<string>>)
    requires column in FilterColumns
    ensures var c := ListClause(column, items);
            Placeholders(c.text) == |c.params| && c.text != [] && c.text[|c.text| - 1] != '%'
  {
    FilterColumnsPlain(column);
    var c := ListClause(column, items);
    if None in items {
      var values := NonNull(items);
      if values != [] {
        var list := PlaceholderList(|values|);
        PlaceholderListCount(|values|);
        assert c.text == ("(" + column + " IN (") + list + (") OR " + column + " IS NULL)");
        PlaceholdersAround("(" + column + " IN (", list, ") OR " + column + " IS NULL)");
      } else {
        NoPercentNoPlaceholders(column + " IS NULL");
      }
    } else {
      var list := PlaceholderList(|items|);
      PlaceholderListCount(|items|);
      NonNullAll(items);
      assert c.text == (column + " IN (") + list + ")";
      PlaceholdersAround(column + " IN (", list, ")");
    }
  }

  lemma {:induction false} NonNullAll(items: seq<Option<string>>)
    requires None !in items
    ensures |NonNull(items)| == |items|
  {
    if items != [] {
      NonNullAll(items[1..]);
    }
  }

  /**
   * The WHERE text of list_prospectos holds exactly one "%s" per parameter,
   * so psycopg2 binds every value.
   */
  lemma {:induction false} WherePlaceholders(filters: seq<(string, FilterValue)>)
    requires ColumnsOk(filters)
    ensures var c := FilterClauses(filters);
            Placeholders(c.text) == |c.params| && c.text != [] && c.text[|c.text| - 1] != '%'
  {
    if filters == [] {
      NotActivatedPlain();
      NoPercentNoPlaceholders(NotActivated);
    } else {
      var init := filters[..|filters| - 1];
      assert ColumnsOk(init) by {
        forall k | 0 <= k < |init| ensures init[k].0 in FilterColumns {
          assert init[k] == filters[k];
        }
      }
      WherePlaceholders(init);
      var prev := FilterClauses(init);
      var (column, value) := filters[|filters| - 1];
      if value.ListValue? {
        ListClausePlaceholders(column, value.items);
        AndPlaceholders(prev, ListClause(column, value.items));
      }
    }
  }

  /** Joining two clauses whose placeholders match their parameters with AND keeps them matched. */
  lemma AndPlaceholders(prev: Clause, added: Clause)
    requires Placeholders(prev.text) == |prev.params| && prev.text != [] && prev.text[|prev.text| - 1] != '%'
    requires Placeholders(added.text) == |added.params| && added.text != [] && added.text[|added.text| - 1] != '%'
    ensures var c := Clause(prev.text + " AND " + added.text, prev.params + added.params);
            Placeholders(c.text) == |c.params| && c.text != [] && c.text[|c.text| - 1] != '%'
  {
    PlaceholdersConcat(prev.text, " AND " + added.text);
    PlaceholdersConcat(" AND ", added.text);
    NoPercentNoPlaceholders(" AND ");
    assert prev.text + " AND " + added.text == prev.text + (" AND " + added.text);
  }

  // ---------------------------------------------------------------------
  // Urgency to intent level (activar_prospectos)
  // ---------------------------------------------------------------------

  /** A key/level table searched in order; the first key found in the text wins. */
  type IntentTable = seq<(string, string)>

  /** The table in the order the dictionary literal lists it. */
  const IntentMapAsWritten: IntentTable :=
    [("alta", "decidido"), ("media", "explorando"), ("baja", "cotizando"),
     ("muy alta", "listo"), ("inmediata", "listo")]

  /** The same entries with the keys that contain other keys first. */
  const IntentMap: IntentTable :=
    [("muy alta", "listo"), ("inmediata", "listo"),
     ("alta", "decidido"), ("media", "explorando"), ("baja", "cotizando")]

  /** Position of the first entry whose key occurs in text, or |m| when none does. */
  function FirstKey(m: IntentTable, text: string): (k: nat)
    ensures k <= |m|
    ensures k < |m| ==> Contains(text, m[k].0)
    ensures forall j :: 0 <= j < k ==> !Contains(text, m[j].0)
  {
    if m == [] then 0
    else if Contains(text, m[0].0) then 0
    else 1 + FirstKey(m[1..], text)
  }

  /** The intent level the table gives a lower-cased urgency. */
  function IntentOf(m: IntentTable, text: string): Option<string>
  {
    var k := FirstKey(m, text);
    if k < |m| then Some(m[k].1) else None
  }

  /** `(urgencia or '').lower()` */
  function UrgencyText(urgency: Option<string>): string
  {
    if urgency.None? then "" else Lower(urgency.value)
  }

  /** The loop over the table's items, stopping at the first key found. */
  method FirstMatch(m: IntentTable, text: string) returns (level: Option<string>)
    ensures level.Some? <==> exists j :: 0 <= j < |m| && Contains(text, m[j].0)
    ensures level == IntentOf(m, text)
  {
    level := None;
    var i := 0;
    while i < |m|
      invariant i <= FirstKey(m, text)
    {
      if Contains(text, m[i].0) {
        level := Some(m[i].1);
        return;
      }
      i := i + 1;
    }
  }

  lemma MuyAltaHoldsAlta(text: string)
    requires Contains(text, "muy alta")
    ensures Contains(text, "alta")
  {
    assert "muy alta"[4..8] == "alta";
    ContainsFrom("muy alta", "alta", 4);
    ContainsTrans(text, "muy alta", "alta");
  }

  lemma InmediataHoldsMedia(text: string)
    requires Contains(text, "inmediata")
    ensures Contains(text, "media")
  {
    assert "inmediata"[2..7] == "media";
    ContainsFrom("inmediata", "media", 2);
    ContainsTrans(text, "inmediata", "media");
  }

  /**
   * As written, no urgency ever reaches 'listo': every text holding
   * "muy alta" holds "alta", and every text holding "inmediata" holds "media",
   * and those entries come first.
   */
  lemma AsWrittenNeverListo(text: string)
    ensures IntentOf(IntentMapAsWritten, text) != Some("listo")
  {
    var k := FirstKey(IntentMapAsWritten, text);
    assert IntentMapAsWritten[0].0 == "alta" && IntentMapAsWritten[1].0 == "media";
    assert IntentMapAsWritten[3].0 == "muy alta" && IntentMapAsWritten[4].0 == "inmediata";
    if k == 3 {
      MuyAltaHoldsAlta(text);
    } else if k == 4 {
      InmediataHoldsMedia(text);
    }
  }

  /** "muy alta", which the table means as 'listo', comes out 'decidido'. */
  lemma AsWrittenMisreadsMuyAlta()
    ensures IntentOf(IntentMapAsWritten, "muy alta") == Some("decidido")
  {
    ContainsFrom("muy alta", "muy alta", 0);
    MuyAltaHoldsAlta("muy alta");
    assert IntentMapAsWritten[0] == ("alta", "decidido");
  }

  /** "inmediata", which the table means as 'listo', comes out 'explorando'. */
  lemma AsWrittenMisreadsInmediata()
    ensures IntentOf(IntentMapAsWritten, "inmediata") == Some("explorando")
  {
    ContainsFrom("inmediata", "inmediata", 0);
    InmediataHoldsMedia("inmediata");
    AbsentCharBlocks("inmediata", "alta", 'l');
    var rest := IntentMapAsWritten[1..];
    assert rest[0] == ("media", "explorando");
    assert FirstKey(rest, "inmediata") == 0;
    assert FirstKey(IntentMapAsWritten, "inmediata") == 1;
  }

  /** With the specific keys first, 'listo' is given exactly to the urgent texts. */
  lemma IntentListoIffUrgent(text: string)
    ensures IntentOf(IntentMap, text) == Some("listo")
            <==> Contains(text, "muy alta") || Contains(text, "inmediata")
  {
    var k := FirstKey(IntentMap, text);
    assert IntentMap[0] == ("muy alta", "listo") && IntentMap[1] == ("inmediata", "listo");
    assert IntentMap[2].1 == "decidido" && IntentMap[3].1 == "explorando" && IntentMap[4].1 == "cotizando";
    if Contains(text, "muy alta") {
      assert k == 0;
    } else if Contains(text, "inmediata") {
      assert k == 1;
    } else {
      assert k >= 2;
    }
  }

  /** On every other text the reordered table gives what the written one gives. */
  lemma IntentAgreesOtherwise(text: string)
    requires !Contains(text, "muy alta") && !Contains(text, "inmediata")
    ensures IntentOf(IntentMap, text) == IntentOf(IntentMapAsWritten, text)
  {
    var k := FirstKey(IntentMap, text);
    var w := FirstKey(IntentMapAsWritten, text);
    assert IntentMap[0].0 == "muy alta" && IntentMap[1].0 == "inmediata";
    assert IntentMap[2..] == IntentMapAsWritten[..3];
    assert IntentMapAsWritten[3].0 == "muy alta" && IntentMapAsWritten[4].0 == "inmediata";
    assert k >= 2;
    if w < 3 {
      assert k == w + 2;
    } else {
      assert w == 5 && k == 5;
    }
  }

  // ---------------------------------------------------------------------
  // Experience to a number (activar_prospectos)
  // ---------------------------------------------------------------------

  /** The longest run of digits at the front of s. */
  function LeadingDigits(s: string): (d: string)
    ensures AllDigits(d) && StartsWith(s, d)
    ensures |d| == |s| || !IsDigit(s[|d|])
  {
    if s == [] || !IsDigit(s[0]) then [] else [s[0]] + LeadingDigits(s[1..])
  }

  predicate NoDigit(s: string)
  {
    forall i :: 0 <= i < |s| ==> !IsDigit(s[i])
  }

  /** `re.search(r'\d+', s).group()`: the first maximal run of digits, if any. */
  function FirstNumber(s: string): (r: Option<string>)
    ensures r.None? <==> NoDigit(s)
    ensures r.Some? ==> r.value != [] && AllDigits(r.value) && Contains(s, r.value)
  {
    if s == [] then None
    else if IsDigit(s[0]) then Some(LeadingDigits(s))
    else FirstNumber(s[1..])
  }

  /** `int(d)` for a string of decimal digits. */
  function DecimalValue(d: string): nat
    requires AllDigits(d)
  {
    if d == [] then 0
    else 10 * DecimalValue(d[..|d| - 1]) + (d[|d| - 1] as int - '0' as int)
  }

  /** Reading back the decimal text of n gives n. */
  lemma {:induction false} DecimalValueOfNat(n: nat)
    ensures DecimalValue(NatToString(n)) == n
  {
    if n >= 10 {
      var d := NatToString(n);
      assert d[..|d| - 1] == NatToString(n / 10);
      DecimalValueOfNat(n / 10);
    }
  }

  /** experiencia_int: None for an empty column or one without digits, else its first number. */
  function Experience(experience: Option<string>): (r: Option<nat>)
    ensures r.Some? ==> experience.Some? && !NoDigit(experience.value)
  {
    if experience.None? || experience.value == "" then None
    else
      match FirstNumber(experience.value)
      case None => None
      case Some(d) => Some(DecimalValue(d))
  }

  lemma {:induction false} LeadingDigitsOfNumber(d: string, rest: string)
    requires AllDigits(d)
    requires rest == [] || !IsDigit(rest[0])
    ensures LeadingDigits(d + rest) == d
  {
    if d != [] {
      assert (d + rest)[1..] == d[1..] + rest;
      LeadingDigitsOfNumber(d[1..], rest);
    }
  }

  lemma {:induction false} FirstNumberAfter(prefix: string, s: string)
    requires NoDigit(prefix)
    ensures FirstNumber(prefix + s) == FirstNumber(s)
  {
    if prefix != [] {
      assert (prefix + s)[1..] == prefix[1..] + s;
      assert (prefix + s)[0] == prefix[0] && !IsDigit(prefix[0]);
      assert NoDigit(prefix[1..]) by {
        forall i | 0 <= i < |prefix| - 1 ensures !IsDigit(prefix[1..][i]) {
          assert prefix[1..][i] == prefix[i + 1];
        }
      }
      FirstNumberAfter(prefix[1..], s);
    } else {
      assert prefix + s == s;
    }
  }

  /** A number written between digit-free text is the experience read back. */
  lemma ExperienceReadsNumber(prefix: string, n: nat, rest: string)
    requires NoDigit(prefix)
    requires rest == [] || !IsDigit(rest[0])
    ensures Experience(Some(prefix + NatToString(n) + rest)) == Some(n)
  {
    var d := NatToString(n);
    FirstNumberAfter(prefix, d + rest);
    LeadingDigitsOfNumber(d, rest);
    assert prefix + d + rest == prefix + (d + rest);
    DecimalValueOfNat(n);
  }

  // ---------------------------------------------------------------------
  // activar_prospectos
  // ---------------------------------------------------------------------

  /** A row of prospectos_raw, with the columns the activation reads and the estado it sets. */
  datatype Prospect = Prospect(
    id: int,
    nombre: Option<string>,
    apellidos: Option<string>,
    email: Option<string>,
    telefono: Option<string>,
    programa: Option<string>,
    carrera: Option<string>,
    experiencia: Option<string>,
    urgencia: Option<string>,
    canal: Option<string>,
    estado: string)

  /** A row of leads, keyed by its session id (the normalised phone). */
  datatype Lead = Lead(
    nombre: Option<string>,
    apellido: Option<string>,
    email: Option<string>,
    telefono: Option<string>,
    carrera: Option<string>,
    experiencia: Option<nat>,
    plan: Option<string>,
    intent: Option<string>,
    estado: string,
    canal: string)

  /** `prospecto['canal'] or 'importacion'` */
  function Channel(canal: Option<string>): string
  {
    if canal.None? || canal.value == "" then "importacion" else canal.value
  }

  /**
   * The values the INSERT writes for a prospect, with the estado the row ends
   * up with: the channel is never empty, the experience is only set from a
   * text with a digit, and the intent is one of the table's levels.
   */
  function LeadOf(p: Prospect, estado: string): (r: Lead)
    ensures r.estado == estado
    ensures r.canal != [] && (p.canal.Some? && p.canal.value != [] ==> r.canal == p.canal.value)
    ensures r.experiencia.Some? ==> p.experiencia.Some? && !NoDigit(p.experiencia.value)
    ensures r.intent.Some? ==> r.intent.value in {"listo", "decidido", "explorando", "cotizando"}
  {
    Lead(p.nombre, p.apellidos, p.email, p.telefono, p.carrera, Experience(p.experiencia),
         p.programa, IntentOf(IntentMap, UrgencyText(p.urgencia)), estado, Channel(p.canal))
  }

  /**
   * INSERT ... ON CONFLICT (session_id) DO UPDATE: a new lead starts as
   * 'nuevo'; an existing one gets every column but its estado overwritten.
   */
  function UpsertLead(leads: map<string, Lead>, sessionId: string, p: Prospect): (r: map<string, Lead>)
    ensures r.Keys == leads.Keys + {sessionId}
    ensures r[sessionId] == LeadOf(p, r[sessionId].estado)
    ensures r[sessionId].estado == if sessionId in leads then leads[sessionId].estado else "nuevo"
    ensures forall k :: k in leads && k != sessionId ==> r[k] == leads[k]
  {
    leads[sessionId := LeadOf(p, if sessionId in leads then leads[sessionId].estado else "nuevo")]
  }

  /** `WHERE id IN (ids)`: the table's rows whose id was asked for, in table order. */
  function Fetched(raw: seq<Prospect>, ids: seq<int>): (r: seq<Prospect>)
    ensures forall p :: p in r <==> p in raw && p.id in ids
  {
    Filter(raw, (p: Prospect) => p.id in ids)
  }

  function InvalidPhoneError(id: int): string
  {
    "ID " + IntToString(id) + ": teléfono inválido"
  }

  /** The loop's variables: the two counters, the error list, the leads table and the ids activated. */
  datatype Tally = Tally(activated: nat, skipped: nat, errors: seq<string>,
                         leads: map<string, Lead>, done: set<int>)

  /** One iteration of the loop over the fetched prospects (its effect on each part is `StepFields`). */
  function Step(t: Tally, p: Prospect): Tally
  {
    match NormalizePhone(p.telefono)
    case None =>
      t.(skipped := t.skipped + 1, errors := t.errors + [InvalidPhoneError(p.id)])
    case Some(sessionId) =>
      t.(activated := t.activated + 1, leads := UpsertLead(t.leads, sessionId, p),
         done := t.done + {p.id})
  }

  /** The loop run over ps, starting from the leads table as it was. */
  function Tallied(ps: seq<Prospect>, leads: map<string, Lead>): Tally
  {
    if ps == [] then Tally(0, 0, [], leads, {})
    else Step(Tallied(ps[..|ps| - 1], leads), ps[|ps| - 1])
  }

  /** `UPDATE prospectos_raw SET estado = 'activado' WHERE id = %s` for every id in done. */
  function MarkActivated(raw: seq<Prospect>, done: set<int>): (r: seq<Prospect>)
    ensures |r| == |raw|
    ensures forall k :: 0 <= k < |raw| ==>
              r[k] == if raw[k].id in done then raw[k].(estado := "activado") else raw[k]
  {
    seq(|raw|, k requires 0 <= k < |raw| => if raw[k].id in done then raw[k].(estado := "activado") else raw[k])
  }

  /** The JSON body of a successful activation. */
  datatype Response = Response(activated: nat, skipped: nat, message: string,
                               warnings: Option<seq<string>>)

  /** `' | '.join(message_parts) if message_parts else 'Sin cambios'` */
  function Message(activated: nat, skipped: nat): string
  {
    var parts := (if activated > 0 then [NatToString(activated) + " activados"] else [])
               + (if skipped > 0 then [NatToString(skipped) + " omitidos"] else []);
    if parts == [] then "Sin cambios" else Join(" | ", parts)
  }

  /** The response of a tally: its counters, "Sin cambios" exactly when it counted nothing, and its errors as warnings when there are one to five. */
  function Respond(t: Tally): (r: Response)
    ensures r.activated == t.activated && r.skipped == t.skipped
    ensures r.message == "Sin cambios" <==> t.activated == 0 && t.skipped == 0
    ensures r.warnings.Some? ==> r.warnings.value == t.errors && 1 <= |t.errors| <= 5
  {
    MessageSinCambios(t.activated, t.skipped);
    Response(t.activated, t.skipped, Message(t.activated, t.skipped),
             if 1 <= |t.errors| <= 5 then Some(t.errors) else None)
  }

  /** What a committed activation leaves: the response and both tables. */
  datatype Outcome = Outcome(response: Response, raw: seq<Prospect>, leads: map<string, Lead>)

  /**
   * activar_prospectos over the two tables: refused exactly when no id is
   * given; otherwise every fetched prospect is counted once, the prospect table
   * keeps its rows and no lead is dropped.
   */
  function Activation(raw: seq<Prospect>, leads: map<string, Lead>, ids: seq<int>): (r: Result<Outcome, string>)
    ensures r.Err? <==> ids == []
    ensures r.Ok? ==> r.value.response.activated + r.value.response.skipped == |Fetched(raw, ids)|
    ensures r.Ok? ==> |r.value.raw| == |raw| && leads.Keys <= r.value.leads.Keys
  {
    if ids == [] then Err("No IDs provided")
    else
      var t := Tallied(Fetched(raw, ids), leads);
      TalliedCounts(Fetched(raw, ids), leads);
      TalliedLeads(Fetched(raw, ids), leads);
      Ok(Outcome(Respond(t), MarkActivated(raw, t.done), t.leads))
  }

  /** activar_prospectos: the ids check, the fetch and the per-prospect loop. */
  method ActivateProspects(raw: seq<Prospect>, leads: map<string, Lead>, ids: seq<int>)
    returns (r: Result<Outcome, string>)
    ensures r == Activation(raw, leads, ids)
  {
    if ids == [] {
      return Err("No IDs provided");
    }
    var prospects := Fetched(raw, ids);
    var activated, skipped, errors, table, current := ActivationLoop(raw, leads, prospects);
    r := Ok(Outcome(Response(activated, skipped, Message(activated, skipped),
                             if 1 <= |errors| <= 5 then Some(errors) else None), table, current));
  }

  /** The per-prospect loop: each one is skipped with an error or upserted as a lead and marked. */
  method ActivationLoop(raw: seq<Prospect>, leads: map<string, Lead>, prospects: seq<Prospect>)
    returns (activated: nat, skipped: nat, errors: seq<string>, table: seq<Prospect>, current: map<string, Lead>)
    ensures var t := Tallied(prospects, leads);
            activated == t.activated && skipped == t.skipped && errors == t.errors && current == t.leads
            && table == MarkActivated(raw, t.done)
  {
    activated, skipped, errors, table, current := 0, 0, [], raw, leads;
    ghost var t := Tally(0, 0, [], leads, {});
    var i := 0;
    while i < |prospects|
      invariant i <= |prospects|
      invariant t == Tallied(prospects[..i], leads)
      invariant activated == t.activated && skipped == t.skipped && errors == t.errors
      invariant current == t.leads && table == MarkActivated(raw, t.done)
    {
      var p := prospects[i];
      TalliedNext(prospects, i, leads);
      StepFields(t, p);
      var sessionId := NormalizePhone(p.telefono);
      if sessionId.None? {
        skipped := skipped + 1;
        errors := errors + [InvalidPhoneError(p.id)];
      } else {
        current := Upsert(current, sessionId.value, p);
        table := MarkRow(table, p.id);
        MarkActivatedGrows(raw, t.done, p.id);
        activated := activated + 1;
      }
      t := Step(t, p);
      i := i + 1;
    }
    assert prospects[..i] == prospects;
  }

  /** The INSERT ... ON CONFLICT of one prospect, with its intent level found by the urgency loop. */
  method Upsert(current: map<string, Lead>, sessionId: string, p: Prospect) returns (next: map<string, Lead>)
    ensures next == UpsertLead(current, sessionId, p)
  {
    var level := FirstMatch(IntentMap, UrgencyText(p.urgencia));
    var estado := if sessionId in current then current[sessionId].estado else "nuevo";
    next := current[sessionId := Lead(p.nombre, p.apellidos, p.email, p.telefono,
      p.carrera, Experience(p.experiencia), p.programa, level, estado, Channel(p.canal))];
  }

  /** What one iteration does to each part of the tally. */
  lemma StepFields(t: Tally, p: Prospect)
    ensures var t' := Step(t, p);
            match NormalizePhone(p.telefono)
            case None =>
              t'.activated == t.activated && t'.skipped == t.skipped + 1
              && t'.errors == t.errors + [InvalidPhoneError(p.id)] && t'.leads == t.leads && t'.done == t.done
            case Some(sessionId) =>
              t'.activated == t.activated + 1 && t'.skipped == t.skipped && t'.errors == t.errors
              && t'.leads == UpsertLead(t.leads, sessionId, p) && t'.done == t.done + {p.id}
  {
  }

  lemma TalliedNext(ps: seq<Prospect>, i: nat, leads: map<string, Lead>)
    requires i < |ps|
    ensures Tallied(ps[..i + 1], leads) == Step(Tallied(ps[..i], leads), ps[i])
  {
    assert ps[..i + 1][..i] == ps[..i];
  }

  /** One `UPDATE ... WHERE id = %s`. */
  function MarkRow(raw: seq<Prospect>, id: int): (r: seq<Prospect>)
    ensures r == MarkActivated(raw, {id}) 
  {
    seq(|raw|, k requires 0 <= k < |raw| => if raw[k].id == id then raw[k].(estado := "activado") else raw[k])
  }

  lemma MarkActivatedGrows(raw: seq<Prospect>, done: set<int>, id: int)
    ensures MarkRow(MarkActivated(raw, done), id) == MarkActivated(raw, done + {id})
  {
  }

  /** Every fetched prospect is counted once, as activated or as skipped with one error. */
  lemma {:induction false} TalliedCounts(ps: seq<Prospect>, leads: map<string, Lead>)
    ensures var t := Tallied(ps, leads);
            t.activated + t.skipped == |ps| && |t.errors| == t.skipped
  {
    if ps != [] {
      TalliedCounts(ps[..|ps| - 1], leads);
    }
  }

  /** The errors are exactly the invalid-phone messages of the prospects skipped. */
  lemma {:induction false} TalliedErrors(ps: seq<Prospect>, leads: map<string, Lead>)
    ensures var t := Tallied(ps, leads);
            (forall e :: e in t.errors ==>
               exists p :: p in ps && NormalizePhone(p.telefono).None? && e == InvalidPhoneError(p.id)) &&
            (forall p :: p in ps && NormalizePhone(p.telefono).None? ==> InvalidPhoneError(p.id) in t.errors)
  {
    ErrorsFromSkipped(ps, leads);
    SkippedGiveErrors(ps, leads);
  }

  lemma {:induction false} ErrorsFromSkipped(ps: seq<Prospect>, leads: map<string, Lead>)
    ensures forall e :: e in Tallied(ps, leads).errors ==>
              exists p :: p in ps && NormalizePhone(p.telefono).None? && e == InvalidPhoneError(p.id)
  {
    if ps != [] {
      var init, last := ps[..|ps| - 1], ps[|ps| - 1];
      ErrorsFromSkipped(init, leads);
      var prev := Tallied(init, leads);
      var extra := if NormalizePhone(last.telefono).None? then [InvalidPhoneError(last.id)] else [];
      assert Tallied(ps, leads).errors == prev.errors + extra;
      forall e | e in prev.errors + extra
        ensures exists p :: p in ps && NormalizePhone(p.telefono).None? && e == InvalidPhoneError(p.id)
      {
        if e in prev.errors {
          var p :| p in init && NormalizePhone(p.telefono).None? && e == InvalidPhoneError(p.id);
          assert p in ps;
        } else {
          assert last in ps;
        }
      }
    }
  }

  lemma {:induction false} SkippedGiveErrors(ps: seq<Prospect>, leads: map<string, Lead>)
    ensures forall p :: p in ps && NormalizePhone(p.telefono).None? ==> InvalidPhoneError(p.id) in Tallied(ps, leads).errors
  {
    if ps != [] {
      var init, last := ps[..|ps| - 1], ps[|ps| - 1];
      SkippedGiveErrors(init, leads);
      var prev := Tallied(init, leads);
      assert prev.errors <= Tallied(ps, leads).errors;
      assert forall p :: p in ps ==> p in init || p == last;
    }
  }

  /** Exactly the prospects with a valid phone are marked 'activado'. */
  lemma {:induction false} TalliedDone(ps: seq<Prospect>, leads: map<string, Lead>)
    ensures forall id :: id in Tallied(ps, leads).done <==>
              exists p :: p in ps && p.id == id && NormalizePhone(p.telefono).Some?
  {
    if ps != [] {
      var init := ps[..|ps| - 1];
      TalliedDone(init, leads);
      assert forall p :: p in init ==> p in ps;
      assert forall p :: p in ps ==> p in init || p == ps[|ps| - 1];
    }
  }

  /**
   * Leads are only added or updated: every earlier lead stays with its
   * estado, every new one is keyed by a canonical mobile number and starts as
   * 'nuevo', and every valid phone ends up with a lead.
   */
  lemma {:induction false} TalliedLeads(ps: seq<Prospect>, leads: map<string, Lead>)
    ensures var t := Tallied(ps, leads);
            (forall k :: k in leads ==> k in t.leads && t.leads[k].estado == leads[k].estado) &&
            (forall k :: k in t.leads && k !in leads ==> MobileForm(k) && t.leads[k].estado == "nuevo") &&
            (forall p :: p in ps && NormalizePhone(p.telefono).Some? ==> NormalizePhone(p.telefono).value in t.leads)
  {
    if ps != [] {
      var init := ps[..|ps| - 1];
      TalliedLeads(init, leads);
      assert forall p :: p in ps ==> p in init || p == ps[|ps| - 1];
    }
  }

  /** "Sin cambios" is answered exactly when none of the asked ids was in the table. */
  lemma SinCambiosIffNothingFetched(raw: seq<Prospect>, leads: map<string, Lead>, ids: seq<int>)
    requires ids != []
    ensures Activation(raw, leads, ids).value.response.message == "Sin cambios"
            <==> Fetched(raw, ids) == []
  {
    var t := Tallied(Fetched(raw, ids), leads);
    TalliedCounts(Fetched(raw, ids), leads);
    MessageSinCambios(t.activated, t.skipped);
  }

  lemma MessageSinCambios(activated: nat, skipped: nat)
    ensures Message(activated, skipped) == "Sin cambios" <==> activated == 0 && skipped == 0
  {
    var m := Message(activated, skipped);
    if activated > 0 {
      var d := NatToString(activated);
      if skipped > 0 {
        var parts := [d + " activados", NatToString(skipped) + " omitidos"];
        assert parts == [d + " activados"] + [NatToString(skipped) + " omitidos"];
        assert m == Join(" | ", parts);
        assert parts[1..] == [parts[1]];
        assert Join(" | ", parts) == parts[0] + " | " + parts[1];
      }
      assert m[0] == d[0] && IsDigit(m[0]);
    } else if skipped > 0 {
      var d := NatToString(skipped);
      assert m[0] == d[0] && IsDigit(m[0]);
    }
  }

  /** Warnings are attached exactly when between one and five prospects were skipped. */
  lemma WarningsIffFewSkipped(raw: seq<Prospect>, leads: map<string, Lead>, ids: seq<int>)
    requires ids != []
    ensures var r := Activation(raw, leads, ids).value.response;
            r.warnings.Some? <==> 1 <= r.skipped <= 5
  {
    TalliedCounts(Fetched(raw, ids), leads);
  }
}
