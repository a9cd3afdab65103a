/**
 * The active-prospect (leads) module: the WHERE clause and the ORDER BY of
 * the lead list, the estado changes, the chat-history role mapping and the
 * per-estado statistics.
 */
module ActiveProspects {
  import opened Common

  // ---------------------------------------------------------------------
  // list_activos: WHERE clause
  // ---------------------------------------------------------------------

  /** The query-string filters of the lead list, as received. */
  datatype ListFilters = ListFilters(search: string, estado: string, carrera: string, plan: string)

  /** One `column ILIKE %s` term of the search clause, after its connective. */
  function ILike(connective: string, column: string): string
  {
    connective + column + " ILIKE %s"
  }

  /** The search clause: one "%s" per searched column. */
  const SearchClause: string :=
    ILike("(", "nombre") + ILike(" OR ", "apellido") + ILike(" OR ", "email")
    + ILike(" OR ", "carrera_interes") + ")"

  /** `f'%{search}%'`, the ILIKE pattern of a search. */
  function SearchPattern(search: string): string
  {
    "%" + search + "%"
  }

  /** The clauses and parameters one filter contributes. */
  datatype Part = Part(clauses: seq<string>, params: seq<string>)

  function Combine(a: Part, b: Part): Part
  {
    Part(a.clauses + b.clauses, a.params + b.params)
  }

  /** A non-blank search: the ILIKE clause over four columns, with the pattern once per column. */
  function SearchPart(search: string): Part
  {
    var s := Strip(search);
    if s == "" then Part([], [])
    else Part([SearchClause], [SearchPattern(s), SearchPattern(s), SearchPattern(s), SearchPattern(s)])
  }

  /** A non-blank equality filter: `column = %s` bound to the stripped value. */
  function EqualsPart(column: string, value: string): Part
  {
    var v := Strip(value);
    if v == "" then Part([], []) else Part([column + " = %s"], [v])
  }

  /** The clauses that apply, in the order the handler appends them, with their parameters. */
  function ActiveWhere(f: ListFilters): Part
  {
    Combine(Combine(Combine(SearchPart(f.search), EqualsPart("estado", f.estado)),
                    EqualsPart("carrera_interes", f.carrera)),
            EqualsPart("plan", f.plan))
  }

  /** `' AND '.join(where_clauses) if where_clauses else '1=1'` */
  function WhereSql(clauses: seq<string>): string
  {
    if clauses == [] then "1=1" else Join(" AND ", clauses)
  }

  /** `if search:` of list_activos. */
  method AppendSearch(search: string) returns (clauses: seq<string>, params: seq<string>)
    ensures Part(clauses, params) == SearchPart(search)
  {
    clauses, params := [], [];
    var s := Strip(search);
    if s != "" {
      var pattern := SearchPattern(s);
      clauses := clauses + [SearchClause];
      params := params + [pattern, pattern, pattern, pattern];
    }
  }

  /** `if filter_x: where_clauses.append("x = %s"); params.append(filter_x)` */
  method AppendEquals(clauses: seq<string>, params: seq<string>, column: string, value: string)
    returns (clauses': seq<string>, params': seq<string>)
    ensures Part(clauses', params') == Combine(Part(clauses, params), EqualsPart(column, value))
  {
    clauses', params' := clauses, params;
    var v := Strip(value);
    if v != "" {
      clauses' := clauses' + [column + " = %s"];
      params' := params' + [v];
    } else {
      assert clauses + [] == clauses && params + [] == params;
    }
  }

  /** The appends of list_activos, one filter after the other. */
  method BuildActiveWhere(f: ListFilters) returns (whereSql: string, params: seq<string>)
    ensures whereSql == WhereSql(ActiveWhere(f).clauses) && params == ActiveWhere(f).params
  {
    var clauses;
    clauses, params := AppendSearch(f.search);
    clauses, params := AppendEquals(clauses, params, "estado", f.estado);
    clauses, params := AppendEquals(clauses, params, "carrera_interes", f.carrera);
    clauses, params := AppendEquals(clauses, params, "plan", f.plan);
    whereSql := if clauses != [] then Join(" AND ", clauses) else "1=1";
  }

  lemma OneMarker(a: string)
    requires NoPercent(a)
    ensures Placeholders(a + "%s") == 1
  {
    NoPercentNoPlaceholders(a);
    PlaceholdersConcat(a, "%s");
  }

  lemma ILikeMarker(connective: string, column: string)
    requires NoPercent(connective) && NoPercent(column)
    ensures Placeholders(ILike(connective, column)) == 1
    ensures ILike(connective, column)[|ILike(connective, column)| - 1] == 's'
  {
    assert ILike(connective, column) == (connective + column + " ILIKE ") + "%s";
    OneMarker(connective + column + " ILIKE ");
  }

  lemma FourMarkers(m1: string, m2: string, m3: string, m4: string, close: string)
    requires Placeholders(m1) == Placeholders(m2) == Placeholders(m3) == Placeholders(m4) == 1
    requires m1 != [] && m1[|m1| - 1] == 's' && m2 != [] && m2[|m2| - 1] == 's'
    requires m3 != [] && m3[|m3| - 1] == 's' && m4 != [] && m4[|m4| - 1] == 's'
    requires NoPercent(close)
    ensures Placeholders(m1 + m2 + m3 + m4 + close) == 4
  {
    PlaceholdersConcat(m1, m2);
    PlaceholdersConcat(m1 + m2, m3);
    PlaceholdersConcat(m1 + m2 + m3, m4);
    PlaceholdersConcat(m1 + m2 + m3 + m4, close);
    NoPercentNoPlaceholders(close);
  }

  lemma SearchClauseMarkers()
    ensures Placeholders(SearchClause) == 4
  {
    ILikeMarker("(", "nombre");
    ILikeMarker(" OR ", "apellido");
    ILikeMarker(" OR ", "email");
    ILikeMarker(" OR ", "carrera_interes");
    FourMarkers(ILike("(", "nombre"), ILike(" OR ", "apellido"), ILike(" OR ", "email"),
                ILike(" OR ", "carrera_interes"), ")");
  }

  lemma {:induction false} PlaceholdersInConcat(a: seq<string>, b: seq<string>)
    ensures PlaceholdersIn(a + b) == PlaceholdersIn(a) + PlaceholdersIn(b)
  {
    if a != [] {
      assert (a + b)[0] == a[0];
      assert (a + b)[1..] == a[1..] + b;
      PlaceholdersInConcat(a[1..], b);
    } else {
      assert a + b == b;
    }
  }

  /** A part whose clauses hold one "%s" per parameter, none ending in '%', none as short as '1=1'. */
  predicate Balanced(p: Part)
  {
    PlaceholdersIn(p.clauses) == |p.params| &&
    forall k :: 0 <= k < |p.clauses| ==> |p.clauses[k]| > 3 && p.clauses[k][|p.clauses[k]| - 1] != '%'
  }

  lemma CombineBalanced(a: Part, b: Part)
    requires Balanced(a) && Balanced(b)
    ensures Balanced(Combine(a, b))
  {
    PlaceholdersInConcat(a.clauses, b.clauses);
    var c := Combine(a, b).clauses;
    forall k | 0 <= k < |c| ensures |c[k]| > 3 && c[k][|c[k]| - 1] != '%' {
      if k < |a.clauses| {
        assert c[k] == a.clauses[k];
      } else {
        assert c[k] == b.clauses[k - |a.clauses|];
      }
    }
  }

  lemma SearchPartBalanced(search: string)
    ensures Balanced(SearchPart(search))
  {
    if Strip(search) != "" {
      SearchClauseMarkers();
    }
  }

  lemma EqualsPartBalanced(column: string, value: string)
    requires NoPercent(column)
    ensures Balanced(EqualsPart(column, value))
  {
    if Strip(value) != "" {
      assert column + " = %s" == (column + " = ") + "%s";
      OneMarker(column + " = ");
    }
  }

  /** The WHERE text of list_activos holds exactly one "%s" per parameter. */
  lemma ActiveWherePlaceholders(f: ListFilters)
    ensures Placeholders(WhereSql(ActiveWhere(f).clauses)) == |ActiveWhere(f).params|
  {
    SearchPartBalanced(f.search);
    EqualsPartBalanced("estado", f.estado);
    EqualsPartBalanced("carrera_interes", f.carrera);
    EqualsPartBalanced("plan", f.plan);
    var p1 := Combine(SearchPart(f.search), EqualsPart("estado", f.estado));
    CombineBalanced(SearchPart(f.search), EqualsPart("estado", f.estado));
    var p2 := Combine(p1, EqualsPart("carrera_interes", f.carrera));
    CombineBalanced(p1, EqualsPart("carrera_interes", f.carrera));
    CombineBalanced(p2, EqualsPart("plan", f.plan));
    BalancedWhere(ActiveWhere(f));
  }

  lemma BalancedWhere(p: Part)
    requires Balanced(p)
    ensures Placeholders(WhereSql(p.clauses)) == |p.params|
  {
    if p.clauses != [] {
      PlaceholdersJoin(" AND ", p.clauses);
    } else {
      NoPercentNoPlaceholders("1=1");
    }
  }

  /** The WHERE text is '1=1' exactly when every filter is blank. */
  lemma ActiveWhereTrivialIffBlank(f: ListFilters)
    ensures WhereSql(ActiveWhere(f).clauses) == "1=1"
            <==> IsBlank(f.search) && IsBlank(f.estado) && IsBlank(f.carrera) && IsBlank(f.plan)
  {
    StripEmptyIffBlank(f.search);
    StripEmptyIffBlank(f.estado);
    StripEmptyIffBlank(f.carrera);
    StripEmptyIffBlank(f.plan);
    var c := ActiveWhere(f).clauses;
    if c != [] {
      assert |c[0]| > 3 by {
        if Strip(f.search) != "" { assert c[0] == SearchClause; }
      }
      if |c| > 1 {
        assert |Join(" AND ", c)| >= |c[0]|;
      }
    }
  }

  /** Each search adds four copies of the same ILIKE pattern. */
  lemma SearchAddsFourPatterns(f: ListFilters)
    requires !IsBlank(f.search)
    ensures ActiveWhere(f).params[..4] == seq(4, _ => SearchPattern(Strip(f.search)))
  {
    StripEmptyIffBlank(f.search);
  }

  // ---------------------------------------------------------------------
  // list_activos: ORDER BY
  // ---------------------------------------------------------------------

  /** valid_sort_columns */
  const SortColumns: map<string, string> := map[
    "nombre" := "l.nombre",
    "apellido" := "l.apellido",
    "carrera" := "l.carrera_interes",
    "dias_transcurridos" := "l.dias_transcurridos",
    "mensaje_count" := "mensaje_count",
    "fecha_primer_contacto" := "l.fecha_primer_contacto"]

  /** `valid_sort_columns.get(sort_by, 'l.dias_transcurridos')`: only whitelisted SQL reaches ORDER BY. */
  function SortColumn(sortBy: string): (r: string)
    ensures r in SortColumns.Values
    ensures sortBy in SortColumns ==> r == SortColumns[sortBy]
    ensures sortBy !in SortColumns ==> r == SortColumns["dias_transcurridos"]
  {
    assert SortColumns["dias_transcurridos"] == "l.dias_transcurridos";
    if sortBy in SortColumns then SortColumns[sortBy] else "l.dias_transcurridos"
  }

  /** `'ASC' if sort_order.upper() == 'ASC' else 'DESC'` */
  function SortDirection(sortOrder: string): (r: string)
    ensures r == "ASC" || r == "DESC"
    ensures r == "ASC" <==> Upper(sortOrder) == "ASC"
  {
    if Upper(sortOrder) == "ASC" then "ASC" else "DESC"
  }

  // ---------------------------------------------------------------------
  // Estado changes (activar_prospectos and cambiar_estado)
  // ---------------------------------------------------------------------

  /** estados_validos, in the order the error message lists them. */
  const Estados: seq<string> :=
    ["nuevo", "calificando", "persuadiendo", "listo_matricula", "perdido", "en_proceso"]

  /** The leads table as these endpoints see it: id to estado. */
  type EstadoTable = map<int, string>

  /** The response of an UPDATE ... RETURNING id: the new table and the ids it touched. */
  datatype Update = Update(table: EstadoTable, updated: set<int>)

  /** `UPDATE leads SET estado = %s WHERE id IN (ids)` */
  function SetEstado(table: EstadoTable, ids: seq<int>, estado: string): (u: Update)
    ensures u.table.Keys == table.Keys
    ensures u.updated == set k | k in table && k in ids
    ensures forall k :: k in table ==> u.table[k] == if k in ids then estado else table[k]
  {
    Update(map k | k in table :: if k in ids then estado else table[k],
           set k | k in table && k in ids)
  }

  /**
   * cambiar_estado: both fields required, the estado one of the six, then the
   * UPDATE. A change is accepted exactly for a non-empty id list and one of the
   * six estados, and then touches only the estado of the listed rows.
   */
  function ChangeEstado(table: EstadoTable, ids: seq<int>, estado: string): (r: Result<Update, string>)
    ensures r.Ok? <==> ids != [] && estado in Estados
    ensures r.Ok? ==>
              r.value.table.Keys == table.Keys && r.value.updated <= table.Keys &&
              (forall k :: k in table && k !in ids ==> r.value.table[k] == table[k]) &&
              (forall k :: k in r.value.updated ==> r.value.table[k] == estado)
  {
    if ids == [] || estado == "" then Err("IDs y estado son requeridos")
    else if estado !in Estados then Err("Estado inválido. Permitidos: " + Join(", ", Estados))
    else Ok(SetEstado(table, ids, estado))
  }

  /** `f'{len(updated_ids)} prospectos actualizados a: {nuevo_estado}'`: a count in digits first, the estado last. */
  function ChangeMessage(u: Update, estado: string): (r: string)
    ensures |r| > |estado| && IsDigit(r[0])
    ensures r[|r| - |estado|..] == estado
  {
    NatToString(|u.updated|) + " prospectos actualizados a: " + estado
  }

  /** activar_prospectos of this module: refused without ids; otherwise the listed rows, and only they, move to 'en_proceso'. */
  function ActivateLeads(table: EstadoTable, ids: seq<int>): (r: Result<Update, string>)
    ensures r.Ok? <==> ids != []
    ensures r.Ok? ==>
              r.value.table.Keys == table.Keys && r.value.updated <= table.Keys &&
              (forall k :: k in table && k !in ids ==> r.value.table[k] == table[k]) &&
              (forall k :: k in r.value.updated ==> r.value.table[k] == "en_proceso")
  {
    if ids == [] then Err("No se proporcionaron IDs")
    else Ok(SetEstado(table, ids, "en_proceso"))
  }

  predicate AllValid(table: EstadoTable)
  {
    forall k :: k in table ==> table[k] in Estados
  }

  /** A table whose estados are all valid stays so under every accepted change. */
  lemma ChangeEstadoKeepsValid(table: EstadoTable, ids: seq<int>, estado: string)
    requires AllValid(table)
    ensures ChangeEstado(table, ids, estado).Ok? ==> AllValid(ChangeEstado(table, ids, estado).value.table)
  {
  }

  /** Activating is changing the estado to 'en_proceso', except for the error text. */
  lemma ActivateIsChangeToEnProceso(table: EstadoTable, ids: seq<int>)
    ensures ActivateLeads(table, ids).Ok? <==> ChangeEstado(table, ids, "en_proceso").Ok?
    ensures ActivateLeads(table, ids).Ok? ==> ActivateLeads(table, ids) == ChangeEstado(table, ids, "en_proceso")
  {
    assert Estados[5] == "en_proceso";
  }

  // ---------------------------------------------------------------------
  // get_mensajes: chat history to messages
  // ---------------------------------------------------------------------

  /** The decoded `message` column: a JSON object with its 'type' and 'content', something else, or bad JSON. */
  datatype Body =
    | Object(kind: Option<string>, content: Option<string>)
    | NotAnObject
    | Unparsable

  datatype ChatRow = ChatRow(id: int, body: Body, timestamp: Option<string>)

  datatype ChatMessage = ChatMessage(id: int, role: string, content: string, timestamp: Option<string>)

  /** `message_data.get('type', 'user')` with 'human' read as 'user' and 'ai' as 'assistant'. */
  function Role(kind: Option<string>): (r: string)
    ensures r != "human" && r != "ai"
    ensures kind.Some? && kind.value !in {"human", "ai"} ==> r == kind.value
  {
    if kind.None? || kind.value == "human" then "user"
    else if kind.value == "ai" then "assistant"
    else kind.value
  }

  function MessageOf(row: ChatRow): ChatMessage
    requires row.body.Object?
  {
    ChatMessage(row.id, Role(row.body.kind),
                if row.body.content.None? then "" else row.body.content.value, row.timestamp)
  }

  /** The messages the loop keeps, in row order: no more than there are rows, and none with an n8n role name. */
  function Messages(rows: seq<ChatRow>): (r: seq<ChatMessage>)
    ensures |r| <= |rows|
    ensures forall m :: m in r ==> m.role != "human" && m.role != "ai"
  {
    if rows == [] then []
    else
      var last := rows[|rows| - 1];
      Messages(rows[..|rows| - 1]) + (if last.body.Object? then [MessageOf(last)] else [])
  }

  /** The loop of get_mensajes over the chat rows. */
  method MapMessages(rows: seq<ChatRow>) returns (messages: seq<ChatMessage>)
    ensures messages == Messages(rows)
  {
    messages := [];
    var i := 0;
    while i < |rows|
      invariant i <= |rows|
      invariant messages == Messages(rows[..i])
    {
      assert rows[..i + 1][..i] == rows[..i];
      var row := rows[i];
      if row.body.Object? {
        var role := row.body.kind;
        var content := if row.body.content.None? then "" else row.body.content.value;
        messages := messages + [ChatMessage(row.id, Role(role), content, row.timestamp)];
      }
      i := i + 1;
    }
    assert rows[..i] == rows;
  }

  function ObjectRows(rows: seq<ChatRow>): (r: seq<ChatRow>)
    ensures forall row :: row in r ==> row in rows && row.body.Object?
  {
    if rows == [] then []
    else
      var last := rows[|rows| - 1];
      ObjectRows(rows[..|rows| - 1]) + (if last.body.Object? then [last] else [])
  }

  /**
   * Exactly the rows holding a JSON object become messages, one each and in
   * row order, and no message keeps the n8n role names.
   */
  lemma {:induction false} MessagesFollowRows(rows: seq<ChatRow>)
    ensures |Messages(rows)| == |ObjectRows(rows)|
    ensures forall k :: 0 <= k < |Messages(rows)| ==>
              Messages(rows)[k] == MessageOf(ObjectRows(rows)[k])
    ensures forall m :: m in Messages(rows) ==> m.role != "human" && m.role != "ai"
  {
    if rows != [] {
      MessagesFollowRows(rows[..|rows| - 1]);
    }
  }

  // ---------------------------------------------------------------------
  // get_stats: display name and colour of each estado
  // ---------------------------------------------------------------------

  const EstadoNames: map<string, string> := map[
    "nuevo" := "Nuevo",
    "calificando" := "Calificando",
    "persuadiendo" := "Persuadiendo",
    "listo_matricula" := "Listo para Matrícula",
    "perdido" := "Perdido",
    "en_proceso" := "En Proceso"]

  const EstadoColors: map<string, string> := map[
    "nuevo" := "primary",
    "calificando" := "info",
    "persuadiendo" := "warning",
    "listo_matricula" := "success",
    "perdido" := "danger",
    "en_proceso" := "secondary"]

  datatype EstadoStat = EstadoStat(estado: string, name: string, color: string, count: nat)

  function StatOf(estado: string, count: nat): EstadoStat
  {
    EstadoStat(estado,
               if estado in EstadoNames then EstadoNames[estado] else estado,
               if estado in EstadoColors then EstadoColors[estado] else "secondary",
               count)
  }

  /** por_estado, built from the grouped rows in query order. */
  function Stats(rows: seq<(string, nat)>): (r: seq<EstadoStat>)
    ensures |r| == |rows|
    ensures forall k :: 0 <= k < |rows| ==> r[k] == StatOf(rows[k].0, rows[k].1)
  {
    if rows == [] then [] else Stats(rows[..|rows| - 1]) + [StatOf(rows[|rows| - 1].0, rows[|rows| - 1].1)]
  }

  /** The loop of get_stats. */
  method BuildStats(rows: seq<(string, nat)>) returns (stats: seq<EstadoStat>)
    ensures stats == Stats(rows)
  {
    stats := [];
    for i := 0 to |rows|
      invariant stats == Stats(rows[..i])
    {
      assert rows[..i + 1][..i] == rows[..i];
      var (estado, count) := rows[i];
      var name := if estado in EstadoNames then EstadoNames[estado] else estado;
      var color := if estado in EstadoColors then EstadoColors[estado] else "secondary";
      stats := stats + [EstadoStat(estado, name, color, count)];
    }
    assert rows[..|rows|] == rows;
  }

  /**
   * The three estado tables name the same six estados; a known estado gets
   * a name different from its key, an unknown one keeps its key and the
   * 'secondary' colour, and every colour is one of six Bootstrap classes.
   */
  lemma StatLabels(estado: string, count: nat)
    ensures EstadoNames.Keys == EstadoColors.Keys == set e | e in Estados
    ensures StatOf(estado, count).name == estado <==> estado !in Estados
    ensures estado !in Estados ==> StatOf(estado, count).color == "secondary"
    ensures StatOf(estado, count).color in {"primary", "info", "warning", "success", "danger", "secondary"}
  {
  }
}
