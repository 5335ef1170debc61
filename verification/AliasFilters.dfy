/** The rewrite of a handler's filter tree that makes command aliases take effect. */
module AliasFilters {
  import opened Wrappers

  type Pattern = nat
  type Identity = string

  /** An editable command: its own name, its aliases, and whether free text triggers it too. */
  datatype Row = Row(id: Identity, command: string, aliases: seq<string>, textPatterns: bool)

  /** The names of one command that a pattern finds: one with a slash, one without. */
  datatype Found = Found(slash: Option<string>, plain: Option<string>)

  const NOTHING: Found := Found(None, None)

  predicate Holds(f: Found, slash: bool) { if slash then f.slash.Some? else f.plain.Some? }

  function Name(f: Found, slash: bool): string
    requires Holds(f, slash)
  {
    if slash then f.slash.value else f.plain.value
  }

  /** A filter tree. `Opaque` stands for every filter the rewrite does not look into. */
  datatype Filter =
    | Command
    | Regex(pattern: Pattern)
    | Not(inner: Filter)
    | And(left: Filter, right: Filter)
    | Or(left: Filter, right: Filter)
    | Xor(left: Filter, right: Filter)
    | Opaque(name: nat)
    | AliasRegex(pattern: Pattern, identity: Identity, witnesses: Found)
    | AliasCommand(rows: seq<Row>)

  /** A message as filters see it: its text, whether Telegram marks a command, and the alias it starts
      with, as read with and without a check of the addressed bot. */
  datatype Message = Message(text: string, command: bool, parsed: Option<string>, anyParsed: Option<string>,
      isPrivate: bool)

  /** The world a filter is asked in: pattern search, opaque filters, and the aliases pinned per command. */
  datatype World = World(search: (Pattern, string) -> bool, foreign: (nat, Message) -> bool,
      pinned: Identity -> Option<set<string>>)

  predicate Slash(alias: string) { alias != "" && alias[0] == '/' }

  predicate NativeRegex(w: World, p: Pattern, m: Message) { m.text != "" && w.search(p, m.text) }

  /** `AliasRegex.filter` */
  predicate AliasRegexAccepts(w: World, p: Pattern, id: Identity, witnesses: Found, m: Message) {
    var aliases := w.pinned(id);
    if aliases == None then NativeRegex(w, p, m)
    else if m.parsed == None then false
    else if m.parsed.value == "/" + id then NativeRegex(w, p, m)
    else
      var alias := m.parsed.value;
      alias in aliases.value && Holds(witnesses, Slash(alias)) && w.search(p, Name(witnesses, Slash(alias)))
  }

  /** The loop of `AliasCommandFilter.filter` over its rows: the first pinned row decides. */
  predicate AnyRow(w: World, rows: seq<Row>, alias: string, m: Message) {
    if rows == [] then false
    else
      var aliases := w.pinned(rows[0].id);
      if aliases.Some? && alias in aliases.value then Slash(alias) || (!rows[0].textPatterns && m.isPrivate)
      else AnyRow(w, rows[1..], alias, m)
  }

  predicate AliasCommandAccepts(w: World, rows: seq<Row>, m: Message) {
    m.command || (m.anyParsed.Some? && AnyRow(w, rows, m.anyParsed.value, m))
  }

  /** Whether a filter lets a message through. */
  predicate Accepts(w: World, f: Filter, m: Message) {
    match f
    case Command => m.command
    case Regex(p) => NativeRegex(w, p, m)
    case Not(g) => !Accepts(w, g, m)
    case And(a, b) => Accepts(w, a, m) && Accepts(w, b, m)
    case Or(a, b) => Accepts(w, a, m) || Accepts(w, b, m)
    case Xor(a, b) => Accepts(w, a, m) != Accepts(w, b, m)
    case Opaque(n) => w.foreign(n, m)
    case AliasRegex(p, id, witnesses) => AliasRegexAccepts(w, p, id, witnesses, m)
    case AliasCommand(rows) => AliasCommandAccepts(w, rows, m)
  }

  // ---- the rewrite -------------------------------------------------------------------------

  /** The names of a row that a pattern finds, the last one of each kind. */
  function Witnesses(search: (Pattern, string) -> bool, p: Pattern, names: seq<string>): Found {
    if names == [] then NOTHING
    else
      var last := names[|names| - 1];
      var before := Witnesses(search, p, names[..|names| - 1]);
      if !search(p, last) then before else if Slash(last) then before.(slash := Some(last))
        else before.(plain := Some(last))
  }

  datatype Hit = Hit(id: Identity, names: Found)
  type Hits = seq<Hit>

  /** Assignment to a dictionary that remembers its insertion order. */
  function Put(hits: Hits, id: Identity, w: Found): Hits {
    if hits == [] then [Hit(id, w)]
    else if hits[0].id == id then [Hit(id, w)] + hits[1..]
    else [hits[0]] + Put(hits[1..], id, w)
  }

  function AllHits(search: (Pattern, string) -> bool, p: Pattern, rows: seq<Row>): Hits {
    if rows == [] then []
    else
      var row := rows[|rows| - 1];
      Put(AllHits(search, p, rows[..|rows| - 1]), row.id, Witnesses(search, p, [row.command] + row.aliases))
  }

  function NonEmpty(hits: Hits): Hits {
    if hits == [] then [] else (if hits[0].names == NOTHING then [] else [hits[0]]) + NonEmpty(hits[1..])
  }

  /** `_alias_filter` */
  function Rewrite(search: (Pattern, string) -> bool, f: Filter, rows: seq<Row>): Filter {
    match f
    case AliasRegex(_, _, _) => f
    case AliasCommand(_) => f
    case Command => AliasCommand(rows)
    case Not(g) => Not(Rewrite(search, g, rows))
    case Regex(p) =>
      var hits := NonEmpty(AllHits(search, p, rows));
      if |hits| == 1 then AliasRegex(p, hits[0].id, hits[0].names) else f
    case And(a, b) => And(Rewrite(search, a, rows), Rewrite(search, b, rows))
    case Or(a, b) => Or(Rewrite(search, a, rows), Rewrite(search, b, rows))
    case Xor(a, b) => Xor(Rewrite(search, a, rows), Rewrite(search, b, rows))
    case Opaque(_) => f
  }

  // ---- what it preserves -------------------------------------------------------------------

  ghost predicate Unpinned(w: World) { forall id :: w.pinned(id) == None }

  lemma {:induction false} NoRowPinned(w: World, rows: seq<Row>, alias: string, m: Message)
    requires Unpinned(w)
    ensures !AnyRow(w, rows, alias, m)
  {
    if rows != [] { NoRowPinned(w, rows[1..], alias, m); }
  }

  /** With no alias pinned, the rewritten tree accepts exactly the messages the original accepts. */
  lemma {:induction false} RewritePreserves(w: World, f: Filter, rows: seq<Row>, m: Message)
    requires Unpinned(w)
    ensures Accepts(w, Rewrite(w.search, f, rows), m) == Accepts(w, f, m)
  {
    match f
    case Command => if m.anyParsed.Some? { NoRowPinned(w, rows, m.anyParsed.value, m); }
    case Not(g) => RewritePreserves(w, g, rows, m);
    case And(a, b) => RewritePreserves(w, a, rows, m); RewritePreserves(w, b, rows, m);
    case Or(a, b) => RewritePreserves(w, a, rows, m); RewritePreserves(w, b, rows, m);
    case Xor(a, b) => RewritePreserves(w, a, rows, m); RewritePreserves(w, b, rows, m);
    case _ =>
  }

  /** Rewriting twice is rewriting once. */
  lemma {:induction false} RewriteIdempotent(search: (Pattern, string) -> bool, f: Filter, rows: seq<Row>)
    ensures Rewrite(search, Rewrite(search, f, rows), rows) == Rewrite(search, f, rows)
  {
    match f
    case Not(g) => RewriteIdempotent(search, g, rows);
    case And(a, b) => RewriteIdempotent(search, a, rows); RewriteIdempotent(search, b, rows);
    case Or(a, b) => RewriteIdempotent(search, a, rows); RewriteIdempotent(search, b, rows);
    case Xor(a, b) => RewriteIdempotent(search, a, rows); RewriteIdempotent(search, b, rows);
    case _ =>
  }

  // ---- whose rule a regex is -----------------------------------------------------------------

  /** The pattern finds a name of the row. */
  predicate Finds(search: (Pattern, string) -> bool, p: Pattern, row: Row) {
    search(p, row.command) || exists i :: 0 <= i < |row.aliases| && search(p, row.aliases[i])
  }

  lemma {:induction false} WitnessesExact(search: (Pattern, string) -> bool, p: Pattern, names: seq<string>)
    ensures Witnesses(search, p, names) == NOTHING <==> forall i :: 0 <= i < |names| ==> !search(p, names[i])
    ensures forall k :: Holds(Witnesses(search, p, names), k) ==>
              var n := Name(Witnesses(search, p, names), k); n in names && search(p, n) && Slash(n) == k
  {
    if names != [] {
      var init, last := names[..|names| - 1], names[|names| - 1];
      WitnessesExact(search, p, init);
      assert names == init + [last];
      var w, before := Witnesses(search, p, names), Witnesses(search, p, init);
      forall k | Holds(w, k) ensures Name(w, k) in names && search(p, Name(w, k)) && Slash(Name(w, k)) == k {
        if !(search(p, last) && Slash(last) == k) { assert Holds(before, k) && Name(before, k) == Name(w, k); }
      }
    }
  }

  /** The pattern finds a name that has a slash, or one that has none. */
  ghost predicate FindsKind(search: (Pattern, string) -> bool, p: Pattern, names: seq<string>, slash: bool) {
    exists i :: 0 <= i < |names| && search(p, names[i]) && Slash(names[i]) == slash
  }

  lemma {:induction false} KindWitness(search: (Pattern, string) -> bool, p: Pattern, names: seq<string>, slash: bool)
    ensures Holds(Witnesses(search, p, names), slash) <==> FindsKind(search, p, names, slash)
  {
    if names != [] {
      var init, last := names[..|names| - 1], names[|names| - 1];
      KindWitness(search, p, init, slash);
      KindLast(search, p, names, slash);
    }
  }

  lemma {:induction false} KindLast(search: (Pattern, string) -> bool, p: Pattern, names: seq<string>, slash: bool)
    requires names != []
    ensures var init, last := names[..|names| - 1], names[|names| - 1];
      FindsKind(search, p, names, slash) <==>
        FindsKind(search, p, init, slash) || (search(p, last) && Slash(last) == slash)
  {
    var init, last := names[..|names| - 1], names[|names| - 1];
    if i :| 0 <= i < |init| && search(p, init[i]) && Slash(init[i]) == slash {
      assert names[i] == init[i];
    }
    if i :| 0 <= i < |names| && search(p, names[i]) && Slash(names[i]) == slash {
      if i < |init| { assert names[i] == init[i]; }
    }
  }

  ghost predicate Unique(rows: seq<Row>) { forall i, j :: 0 <= i < j < |rows| ==> rows[i].id != rows[j].id }

  lemma {:induction false} PutNew(hits: Hits, id: Identity, w: Found)
    requires forall i :: 0 <= i < |hits| ==> hits[i].id != id
    ensures Put(hits, id, w) == hits + [Hit(id, w)]
  {
    if hits != [] {
      PutNew(hits[1..], id, w);
      assert hits == [hits[0]] + hits[1..];
    }
  }

  function RowHit(search: (Pattern, string) -> bool, p: Pattern, row: Row): Hit {
    Hit(row.id, Witnesses(search, p, [row.command] + row.aliases))
  }

  lemma {:induction false} AllHitsExact(search: (Pattern, string) -> bool, p: Pattern, rows: seq<Row>)
    requires Unique(rows)
    ensures |AllHits(search, p, rows)| == |rows|
    ensures forall i :: 0 <= i < |rows| ==> AllHits(search, p, rows)[i] == RowHit(search, p, rows[i])
  {
    if rows != [] {
      var init, row := rows[..|rows| - 1], rows[|rows| - 1];
      AllHitsExact(search, p, init);
      PutNew(AllHits(search, p, init), row.id, RowHit(search, p, row).names);
    }
  }

  lemma {:induction false} NonEmptyExact(hits: Hits, h: Hit)
    ensures h in NonEmpty(hits) <==> h in hits && h.names != NOTHING
  {
    if hits != [] {
      NonEmptyExact(hits[1..], h);
      assert hits == [hits[0]] + hits[1..];
    }
  }

  lemma {:induction false} RowFinds(search: (Pattern, string) -> bool, p: Pattern, row: Row)
    ensures RowHit(search, p, row).names != NOTHING <==> Finds(search, p, row)
  {
    var names := [row.command] + row.aliases;
    WitnessesExact(search, p, names);
    assert names[0] == row.command;
    assert forall i :: 0 <= i < |row.aliases| ==> names[i + 1] == row.aliases[i];
    assert forall i :: 1 <= i < |names| ==> names[i] == row.aliases[i - 1];
  }

  /** A regex that becomes the rule of a command finds names of that command and of no other. */
  lemma {:induction false} RegexOwner(search: (Pattern, string) -> bool, p: Pattern, rows: seq<Row>, i: nat)
    requires Unique(rows) && i < |rows|
    requires Rewrite(search, Regex(p), rows).AliasRegex?
    ensures var f := Rewrite(search, Regex(p), rows);
            && (rows[i].id == f.identity <==> Finds(search, p, rows[i]))
            && (rows[i].id == f.identity ==> f.witnesses == RowHit(search, p, rows[i]).names)
            && (forall k :: Holds(f.witnesses, k) ==>
              search(p, Name(f.witnesses, k)) && Slash(Name(f.witnesses, k)) == k)
  {
    hide Witnesses, Finds, AllHits, NonEmpty;
    var hits := AllHits(search, p, rows);
    var few := NonEmpty(hits);
    AllHitsExact(search, p, rows);
    RowFinds(search, p, rows[i]);
    NonEmptyExact(hits, few[0]);
    NonEmptyExact(hits, RowHit(search, p, rows[i]));
    var j :| 0 <= j < |hits| && hits[j] == few[0];
    WitnessesExact(search, p, [rows[j].command] + rows[j].aliases);
    if rows[i].id == few[0].id { assert i == j; }
    if Finds(search, p, rows[i]) { assert hits[i] in few; }
  }

  lemma {:induction false} NonEmptyNone(hits: Hits)
    requires forall j :: 0 <= j < |hits| ==> hits[j].names == NOTHING
    ensures NonEmpty(hits) == []
  {
    if hits != [] { NonEmptyNone(hits[1..]); }
  }

  lemma {:induction false} NonEmptyOnly(hits: Hits, i: nat)
    requires i < |hits| && hits[i].names != NOTHING && forall j :: 0 <= j < |hits| && j != i ==>
      hits[j].names == NOTHING
    ensures NonEmpty(hits) == [hits[i]]
  {
    if i == 0 { NonEmptyNone(hits[1..]); } else { NonEmptyOnly(hits[1..], i - 1); }
  }

  /** A regex becomes the rule of a command whenever that command is the only one it finds. */
  lemma {:induction false} RegexTaken(search: (Pattern, string) -> bool, p: Pattern, rows: seq<Row>, i: nat)
    requires Unique(rows) && i < |rows| && forall j :: 0 <= j < |rows| ==> (Finds(search, p, rows[j]) <==> j == i)
    ensures Rewrite(search, Regex(p), rows) == AliasRegex(p, rows[i].id, RowHit(search, p, rows[i]).names)
  {
    hide Witnesses, Finds, AllHits, NonEmpty;
    var hits := AllHits(search, p, rows);
    AllHitsExact(search, p, rows);
    forall j | 0 <= j < |hits| ensures hits[j].names != NOTHING <==> j == i { RowFinds(search, p, rows[j]); }
    NonEmptyOnly(hits, i);
  }

  // ---- what a rewritten tree means ---------------------------------------------------------------

  ghost predicate Pins(w: World, row: Row, alias: string) {
    w.pinned(row.id).Some? && alias in w.pinned(row.id).value
  }

  /** Row `i` is the first that has the alias pinned, and lets it through: with a slash always, without one
      only in a private chat and for a command that free text does not trigger. */
  ghost predicate Lets(w: World, rows: seq<Row>, alias: string, m: Message, i: nat) {
    && i < |rows| && Pins(w, rows[i], alias) && (forall j :: 0 <= j < i ==> !Pins(w, rows[j], alias))
    && (Slash(alias) || (m.isPrivate && !rows[i].textPatterns))
  }

  lemma {:induction false} AnyRowExact(w: World, rows: seq<Row>, alias: string, m: Message)
    ensures AnyRow(w, rows, alias, m) <==> exists i: nat :: Lets(w, rows, alias, m, i)
  {
    if rows != [] {
      if Pins(w, rows[0], alias) {
        assert Lets(w, rows, alias, m, 0) <==> AnyRow(w, rows, alias, m);
        if i: nat :| Lets(w, rows, alias, m, i) { assert i == 0; }
      } else {
        AnyRowExact(w, rows[1..], alias, m);
        if i: nat :| Lets(w, rows[1..], alias, m, i) { assert Lets(w, rows, alias, m, i + 1); }
        if i: nat :| Lets(w, rows, alias, m, i) {
          assert forall j :: 0 <= j < i - 1 ==> rows[1..][j] == rows[j + 1];
          assert Lets(w, rows[1..], alias, m, i - 1);
        }
      }
    }
  }

  /** The one command of the rows that the pattern finds. */
  ghost predicate Sole(search: (Pattern, string) -> bool, p: Pattern, rows: seq<Row>, i: nat) {
    i < |rows| && forall j :: 0 <= j < |rows| ==> (Finds(search, p, rows[j]) <==> j == i)
  }

  /** The rule of one command: its native trigger while nothing is pinned; afterwards the trigger under the
      command's own name, and each pinned alias of a kind that the pattern finds. */
  ghost predicate Rule(w: World, p: Pattern, row: Row, m: Message) {
    && (w.pinned(row.id) == None ==> m.text != "" && w.search(p, m.text))
    && (w.pinned(row.id).Some? ==> m.parsed.Some?)
    && (w.pinned(row.id).Some? && m.parsed == Some("/" + row.id) ==> m.text != "" && w.search(p, m.text))
    && (w.pinned(row.id).Some? && m.parsed.Some? && m.parsed != Some("/" + row.id) ==>
          Pins(w, row, m.parsed.value) && FindsKind(w.search, p, [row.command] + row.aliases, Slash(m.parsed.value)))
  }

  /** What the rewritten form of a filter lets through, said of the filter itself. */
  ghost predicate Meant(w: World, f: Filter, rows: seq<Row>, m: Message) {
    match f
    case Command => m.command || (m.anyParsed.Some? && exists i: nat :: Lets(w, rows, m.anyParsed.value, m, i))
    case Regex(p) =>
      && (forall i: nat :: Sole(w.search, p, rows, i) ==> Rule(w, p, rows[i], m))
      && ((forall i: nat :: !Sole(w.search, p, rows, i)) ==> m.text != "" && w.search(p, m.text))
    case Not(g) => !Meant(w, g, rows, m)
    case And(a, b) => Meant(w, a, rows, m) && Meant(w, b, rows, m)
    case Or(a, b) => Meant(w, a, rows, m) || Meant(w, b, rows, m)
    case Xor(a, b) => Meant(w, a, rows, m) != Meant(w, b, rows, m)
    case _ => Accepts(w, f, m)
  }

  /** A rewritten tree lets through exactly what is meant. */
  lemma {:induction false} RewriteMeans(w: World, f: Filter, rows: seq<Row>, m: Message)
    requires Unique(rows)
    ensures Accepts(w, Rewrite(w.search, f, rows), m) <==> Meant(w, f, rows, m)
  {
    match f
    case Command => if m.anyParsed.Some? { AnyRowExact(w, rows, m.anyParsed.value, m); }
    case Regex(p) => RegexMeans(w, p, rows, m);
    case Not(g) => RewriteMeans(w, g, rows, m);
    case And(a, b) => RewriteMeans(w, a, rows, m); RewriteMeans(w, b, rows, m);
    case Or(a, b) => RewriteMeans(w, a, rows, m); RewriteMeans(w, b, rows, m);
    case Xor(a, b) => RewriteMeans(w, a, rows, m); RewriteMeans(w, b, rows, m);
    case _ =>
  }

  lemma {:induction false} RuleMeans(w: World, p: Pattern, row: Row, m: Message)
    ensures AliasRegexAccepts(w, p, row.id, RowHit(w.search, p, row).names, m) <==> Rule(w, p, row, m)
  {
    hide Witnesses, FindsKind;
    var names := [row.command] + row.aliases;
    WitnessesExact(w.search, p, names);
    KindWitness(w.search, p, names, true);
    KindWitness(w.search, p, names, false);
  }

  lemma {:induction false} RegexMeans(w: World, p: Pattern, rows: seq<Row>, m: Message)
    requires Unique(rows)
    ensures Accepts(w, Rewrite(w.search, Regex(p), rows), m) <==> Meant(w, Regex(p), rows, m)
  {
    hide Witnesses, AllHits, NonEmpty, Finds, RowHit, Rule, AliasRegexAccepts;
    if i: nat :| Sole(w.search, p, rows, i) {
      RegexTaken(w.search, p, rows, i);
      RuleMeans(w, p, rows[i], m);
      forall j: nat | Sole(w.search, p, rows, j) ensures j == i { assert Finds(w.search, p, rows[j]); }
    } else {
      if Rewrite(w.search, Regex(p), rows).AliasRegex? { OwnerSole(w.search, p, rows); }
    }
  }

  /** A regex that becomes a rule has a sole owner. */
  lemma {:induction false} OwnerSole(search: (Pattern, string) -> bool, p: Pattern, rows: seq<Row>)
    requires Unique(rows) && Rewrite(search, Regex(p), rows).AliasRegex?
    ensures exists i: nat :: Sole(search, p, rows, i)
  {
    hide Witnesses, AllHits, NonEmpty, Finds, RowHit;
    OwnerStored(search, p, rows);
    var i: nat :| i < |rows| && rows[i].id == Rewrite(search, Regex(p), rows).identity;
    forall j: nat | j < |rows| ensures Finds(search, p, rows[j]) <==> j == i {
      RegexOwner(search, p, rows, j);
    }
    assert Sole(search, p, rows, i);
  }

  lemma {:induction false} OwnerStored(search: (Pattern, string) -> bool, p: Pattern, rows: seq<Row>)
    requires Unique(rows) && Rewrite(search, Regex(p), rows).AliasRegex?
    ensures exists i: nat :: i < |rows| && rows[i].id == Rewrite(search, Regex(p), rows).identity
  {
    hide Witnesses, AllHits, NonEmpty;
    var hits := AllHits(search, p, rows);
    AllHitsExact(search, p, rows);
    NonEmptyExact(hits, NonEmpty(hits)[0]);
    var j :| 0 <= j < |hits| && hits[j] == NonEmpty(hits)[0];
    assert rows[j].id == RowHit(search, p, rows[j]).id;
  }

  /** A tree that offers a command reacts to every alias with a slash that is pinned for a row. */
  predicate Offers(f: Filter) { f.Command? || (f.Or? && (Offers(f.left) || Offers(f.right))) }

  lemma {:induction false} PinnedReaches(w: World, f: Filter, rows: seq<Row>, alias: string, m: Message, i: nat)
    requires Offers(f) && i < |rows| && Pins(w, rows[i], alias) && Slash(alias) && m.anyParsed == Some(alias)
    ensures Accepts(w, Rewrite(w.search, f, rows), m)
  {
    if f.Command? {
      AnyRowExact(w, rows, alias, m);
      FirstPinned(w, rows, alias, m, i);
    } else {
      PinnedReaches(w, if Offers(f.left) then f.left else f.right, rows, alias, m, i);
    }
  }

  lemma {:induction false} FirstPinned(w: World, rows: seq<Row>, alias: string, m: Message, i: nat)
    requires i < |rows| && Pins(w, rows[i], alias) && Slash(alias)
    ensures exists k: nat :: Lets(w, rows, alias, m, k)
  {
    if j :| 0 <= j < i && Pins(w, rows[j], alias) {
      FirstPinned(w, rows, alias, m, j);
    } else {
      assert Lets(w, rows, alias, m, i);
    }
  }

  // ---- reach of a pinned alias -----------------------------------------------------------------

  /** The commands whose pinned aliases a rewritten tree can depend on. */
  ghost predicate DependsOn(f: Filter, id: Identity) {
    match f
    case AliasRegex(_, owner, _) => owner == id
    case AliasCommand(rows) => exists i :: 0 <= i < |rows| && rows[i].id == id
    case Not(g) => DependsOn(g, id)
    case And(a, b) => DependsOn(a, id) || DependsOn(b, id)
    case Or(a, b) => DependsOn(a, id) || DependsOn(b, id)
    case Xor(a, b) => DependsOn(a, id) || DependsOn(b, id)
    case _ => false
  }

  lemma {:induction false} RowsLocal(w: World, w': World, rows: seq<Row>, alias: string, m: Message)
    requires forall i :: 0 <= i < |rows| ==> w.pinned(rows[i].id) == w'.pinned(rows[i].id)
    ensures AnyRow(w, rows, alias, m) == AnyRow(w', rows, alias, m)
  {
    if rows != [] {
      assert w.pinned(rows[0].id) == w'.pinned(rows[0].id);
      RowsLocal(w, w', rows[1..], alias, m);
    }
  }

  /** Pinning aliases of commands a tree does not depend on never changes what it accepts. */
  lemma {:induction false} PinsAreLocal(w: World, w': World, f: Filter, m: Message)
    requires w'.search == w.search && w'.foreign == w.foreign
    requires forall id :: DependsOn(f, id) ==> w.pinned(id) == w'.pinned(id)
    ensures Accepts(w, f, m) == Accepts(w', f, m)
  {
    match f
    case AliasRegex(_, owner, _) => assert DependsOn(f, owner);
    case AliasCommand(rows) =>
      assert forall i :: 0 <= i < |rows| ==> DependsOn(f, rows[i].id);
      if m.anyParsed.Some? { RowsLocal(w, w', rows, m.anyParsed.value, m); }
    case Not(g) =>
      assert forall id :: DependsOn(g, id) ==> DependsOn(f, id);
      PinsAreLocal(w, w', g, m);
    case And(a, b) =>
      assert forall id :: DependsOn(a, id) || DependsOn(b, id) ==> DependsOn(f, id);
      PinsAreLocal(w, w', a, m);
      PinsAreLocal(w, w', b, m);
    case Or(a, b) =>
      assert forall id :: DependsOn(a, id) || DependsOn(b, id) ==> DependsOn(f, id);
      PinsAreLocal(w, w', a, m);
      PinsAreLocal(w, w', b, m);
    case Xor(a, b) =>
      assert forall id :: DependsOn(a, id) || DependsOn(b, id) ==> DependsOn(f, id);
      PinsAreLocal(w, w', a, m);
      PinsAreLocal(w, w', b, m);
    case _ =>
  }
}
