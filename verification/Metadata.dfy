/** Agent metadata: one bounded walk validates and freezes a JSON-shaped tree. */
module Metadata {
  import opened Domain

  const MAX_DEPTH: nat := 8
  const MAX_NODES: nat := 1024
  const MAX_KEY_LENGTH: nat := 256
  const MAX_STRING_LENGTH: nat := 4096

  /** A value handed in; `Other` is anything not JSON-shaped, and a key that is not a
      string is `None`. */
  datatype Value =
    | Null
    | Bool(b: bool)
    | Int(i: int)
    | Float(finite: bool, r: real)
    | Text(s: string)
    | Dict(entries: seq<Entry>)
    | List(items: seq<Value>)
    | Other

  datatype Entry = Entry(key: Option<string>, value: Value)

  // -------------------------------------------------------------------- keys

  predicate Lower(c: char) { 'a' <= c <= 'z' }

  predicate Upper(c: char) { 'A' <= c <= 'Z' }

  predicate Digit(c: char) { '0' <= c <= '9' }

  /** `lower()` as far as it matters: the two characters outside ASCII whose lower case
      has an ASCII letter are the Kelvin sign and the dotted capital I. */
  function Lowered(c: char): string {
    if Upper(c) then [((c as int) + 32) as char]
    else if c == '\U{212A}' then "k"
    else if c == '\U{0130}' then "i\U{0307}"
    else [c]
  }

  /** A separator at every camel-case boundary, then lower case. */
  function Normal(s: string): string {
    if s == [] then ""
    else Lowered(s[0]) + (if |s| > 1 && (Lower(s[0]) || Digit(s[0])) && Upper(s[1]) then "_" else "") + Normal(s[1..])
  }

  predicate InWord(c: char) { Lower(c) || Digit(c) }

  /** The runs of letters and digits. */
  function WordLength(s: string): (n: nat)
    ensures n <= |s| && (forall i | 0 <= i < n :: InWord(s[i])) && (n < |s| ==> !InWord(s[n]))
  {
    if s == [] || !InWord(s[0]) then 0 else 1 + WordLength(s[1..])
  }

  function Words(s: string): seq<string>
    decreases |s|
  {
    if s == [] then []
    else if !InWord(s[0]) then Words(s[1..])
    else var n := WordLength(s); [s[..n]] + Words(s[n..])
  }

  function KeyTokens(key: string): seq<string> { Words(Normal(key)) }

  predicate RunAt(tokens: seq<string>, term: seq<string>, i: int) {
    0 <= i <= |tokens| - |term| && tokens[i..i + |term|] == term
  }

  predicate ContainsRun(tokens: seq<string>, term: seq<string>) {
    exists i | 0 <= i <= |tokens| - |term| :: RunAt(tokens, term, i)
  }

  const RESERVED: set<seq<string>> := {
    ["permission"], ["permissions"], ["approval"], ["approvals"], ["approve"], ["approved"], ["approver"],
    ["authority"], ["authorities"], ["authorize"], ["authorized"], ["authorization"],
    ["admin"], ["superuser"], ["execute"], ["executable"],
    ["can", "spend"], ["business", "spend"], ["tool", "access"], ["delegation"], ["delegate"],
    ["credential"], ["credentials"], ["secret"], ["secrets"], ["token"], ["tokens"],
    ["api", "key"], ["apikey"], ["access", "key"], ["private", "key"], ["password"], ["passwords"], ["passwd"],
        ["bearer"]
  }

  const SHADOWS: set<seq<string>> := {
    ["agent", "id"], ["display", "name"], ["role"], ["description"], ["enabled"], ["active"], ["disabled"],
    ["preferred", "provider", "ids"], ["required", "capabilities"], ["metadata"], ["created", "at"]
  }

  predicate Unsafe(c: char) {
    var n := c as int;
    n < 0x20 || 0x7f <= n < 0xa0 || n == 0x2028 || n == 0x2029
  }

  predicate Whitespace(c: char) {
    var n := c as int;
    || 0x09 <= n <= 0x0d || 0x1c <= n <= 0x20 || n == 0x85 || n == 0xa0 || n == 0x1680 || 0x2000 <= n <= 0x200a
    || n == 0x2028 || n == 0x2029 || n == 0x202f || n == 0x205f || n == 0x3000
  }

  predicate Blank(key: string) { forall i | 0 <= i < |key| :: Whitespace(key[i]) }

  predicate KeyOk(key: Option<string>) {
    && key.Some? && !Blank(key.value) && |key.value| <= MAX_KEY_LENGTH
    && (forall i | 0 <= i < |key.value| :: !Unsafe(key.value[i]))
    && KeyTokens(key.value) !in SHADOWS
    && (forall term | term in RESERVED :: !ContainsRun(KeyTokens(key.value), term))
  }

  // ------------------------------------------------ what may be accepted at all

  function Nodes(v: Value): nat
    decreases v
  {
    match v
    case Dict(entries) => 1 + EntryNodes(entries)
    case List(items) => 1 + ItemNodes(items)
    case _ => 1
  }

  function EntryNodes(entries: seq<Entry>): nat
    decreases entries
  {
    if entries == [] then 0 else NodesBelow(entries[0]) + EntryNodes(entries[1..])
  }

  function NodesBelow(entry: Entry): nat
    decreases entry
  {
    Nodes(entry.value)
  }

  function ItemNodes(items: seq<Value>): nat
    decreases items
  {
    if items == [] then 0 else Nodes(items[0]) + ItemNodes(items[1..])
  }

  /** Levels below a value: 0 for a leaf or an empty container. */
  predicate Within(v: Value, depth: nat)
    decreases v
  {
    depth <= MAX_DEPTH
    && match v
       case Dict(entries) => forall i | 0 <= i < |entries| :: Within(entries[i].value, depth + 1)
       case List(items) => forall i | 0 <= i < |items| :: Within(items[i], depth + 1)
       case _ => true
  }

  /** Every key and every leaf is admissible. */
  predicate Admissible(v: Value)
    decreases v
  {
    match v
    case Float(finite, _) => finite
    case Text(s) => |s| <= MAX_STRING_LENGTH
    case Dict(entries) => forall i | 0 <= i < |entries| :: KeyOk(entries[i].key) && Admissible(entries[i].value)
    case List(items) => forall i | 0 <= i < |items| :: Admissible(items[i])
    case Other => false
    case _ => true
  }

  // --------------------------------------------------------------------- walk

  datatype Rejection = TooManyNodes | TooDeep | BadLeaf | BadKey

  /** The budget cell every call of the walk shares. */
  class Cell {
    var left: int

    constructor (left: int)
      ensures this.left == left
    {
      this.left := left;
    }
  }

  lemma {:induction false} EntryNodesGrow(entries: seq<Entry>, k: nat)
    requires k < |entries|
    ensures EntryNodes(entries[..k + 1]) == EntryNodes(entries[..k]) + Nodes(entries[k].value)
    decreases k
  {
    if k > 0 {
      EntryNodesGrow(entries[1..], k - 1);
      assert entries[..k + 1][1..] == entries[1..][..k];
      assert entries[..k][1..] == entries[1..][..k - 1];
    } else {
      assert entries[..1] == [entries[0]];
    }
  }

  lemma {:induction false} ItemNodesGrow(items: seq<Value>, k: nat)
    requires k < |items|
    ensures ItemNodes(items[..k + 1]) == ItemNodes(items[..k]) + Nodes(items[k])
    decreases k
  {
    if k > 0 {
      ItemNodesGrow(items[1..], k - 1);
      assert items[..k + 1][1..] == items[1..][..k];
      assert items[..k][1..] == items[1..][..k - 1];
    } else {
      assert items[..1] == [items[0]];
    }
  }

  lemma {:induction false} EntryPrefixFits(entries: seq<Entry>, k: nat)
    requires k <= |entries|
    ensures EntryNodes(entries[..k]) <= EntryNodes(entries)
    decreases |entries| - k
  {
    if k < |entries| {
      EntryNodesGrow(entries, k);
      EntryPrefixFits(entries, k + 1);
    } else {
      assert entries[..k] == entries;
    }
  }

  lemma {:induction false} ItemPrefixFits(items: seq<Value>, k: nat)
    requires k <= |items|
    ensures ItemNodes(items[..k]) <= ItemNodes(items)
    decreases |items| - k
  {
    if k < |items| {
      ItemNodesGrow(items, k);
      ItemPrefixFits(items, k + 1);
    } else {
      assert items[..k] == items;
    }
  }

  /** The walk. It accepts a tree exactly when the tree's own node count fits what is
      left of the shared budget, it is nowhere too deep and all its keys and leaves
      are admissible; accepting, it takes exactly that many nodes from the budget
      and hands back the tree it was given. */
  method Freeze(value: Value, depth: nat, budget: Cell) returns (r: Result<Value, Rejection>)
    modifies budget
    ensures r.Ok? <==> Nodes(value) <= old(budget.left) && Within(value, depth) && Admissible(value)
    ensures r.Ok? ==> r.value == value && budget.left == old(budget.left) - Nodes(value)
    decreases value
  {
    budget.left := budget.left - 1;
    if budget.left < 0 { return Err(TooManyNodes); }
    if depth > MAX_DEPTH { return Err(TooDeep); }
    match value {
      case Float(finite, _) => if !finite { return Err(BadLeaf); }
      case Text(s) => if |s| > MAX_STRING_LENGTH { return Err(BadLeaf); }
      case Other => return Err(BadLeaf);
      case Dict(entries) => r := FreezeEntries(value, depth, budget); return;
      case List(items) => r := FreezeItems(value, depth, budget); return;
      case _ =>
    }
    return Ok(value);
  }

  method FreezeEntries(value: Value, depth: nat, budget: Cell) returns (r: Result<Value, Rejection>)
    requires value.Dict? && budget.left >= 0 && depth <= MAX_DEPTH
    modifies budget
    ensures r.Ok? <==> EntryNodes(value.entries) <= old(budget.left) && Within(value, depth) && Admissible(value)
    ensures r.Ok? ==> r.value == value && budget.left == old(budget.left) - EntryNodes(value.entries)
    decreases value, 0
  {
    hide KeyOk;
    var entries, frozen := value.entries, [];
    for k := 0 to |entries|
      invariant frozen == entries[..k]
      invariant budget.left == old(budget.left) - EntryNodes(entries[..k]) && budget.left >= 0
      invariant forall i | 0 <= i < k ::
                KeyOk(entries[i].key) && Within(entries[i].value, depth + 1) && Admissible(entries[i].value)
    {
      EntryNodesGrow(entries, k);
      EntryPrefixFits(entries, k + 1);
      if !KeyOk(entries[k].key) { return Err(BadKey); }
      var item := Freeze(entries[k].value, depth + 1, budget);
      if item.Err? { return Err(item.error); }
      frozen := frozen + [Entry(entries[k].key, item.value)];
    }
    assert entries[..|entries|] == entries;
    return Ok(Dict(frozen));
  }

  method FreezeItems(value: Value, depth: nat, budget: Cell) returns (r: Result<Value, Rejection>)
    requires value.List? && budget.left >= 0 && depth <= MAX_DEPTH
    modifies budget
    ensures r.Ok? <==> ItemNodes(value.items) <= old(budget.left) && Within(value, depth) && Admissible(value)
    ensures r.Ok? ==> r.value == value && budget.left == old(budget.left) - ItemNodes(value.items)
    decreases value, 0
  {
    hide KeyOk;
    var items, frozen := value.items, [];
    for k := 0 to |items|
      invariant frozen == items[..k]
      invariant budget.left == old(budget.left) - ItemNodes(items[..k]) && budget.left >= 0
      invariant forall i | 0 <= i < k :: Within(items[i], depth + 1) && Admissible(items[i])
    {
      ItemNodesGrow(items, k);
      ItemPrefixFits(items, k + 1);
      var item := Freeze(items[k], depth + 1, budget);
      if item.Err? { return Err(item.error); }
      frozen := frozen + [item.value];
    }
    assert items[..|items|] == items;
    return Ok(List(frozen));
  }

  /** The field validator: at most 1025 nodes counting the root, at most eight levels
      below it, admissible throughout. The result is the value itself, so freezing
      it again succeeds and changes nothing. */
  method FreezeMetadata(value: Value) returns (r: Result<Value, Rejection>)
    ensures r.Ok? <==> Nodes(value) <= 1025 && Height(value) <= 8 && Admissible(value)
    ensures r.Ok? ==> r.value == value
  {
    WithinIff(value, 0);
    var budget := new Cell(MAX_NODES + 1);
    r := Freeze(value, 0, budget);
  }

  /** Levels below a value: none below a leaf or an empty container. */
  function Height(v: Value): nat
    decreases v
  {
    match v
    case Dict(entries) => EntryHeight(entries)
    case List(items) => ItemHeight(items)
    case _ => 0
  }

  function HeightBelow(entry: Entry): nat
    decreases entry
  {
    Height(entry.value)
  }

  function EntryHeight(entries: seq<Entry>): nat
    decreases entries
  {
    if entries == [] then 0 else Higher(1 + HeightBelow(entries[0]), EntryHeight(entries[1..]))
  }

  function ItemHeight(items: seq<Value>): nat
    decreases items
  {
    if items == [] then 0 else Higher(1 + Height(items[0]), ItemHeight(items[1..]))
  }

  function Higher(a: nat, b: nat): nat { if a >= b then a else b }

  /** A value may stand at a depth exactly if nothing in it is deeper than eight. */
  lemma {:induction false} WithinIff(v: Value, depth: nat)
    ensures Within(v, depth) <==> depth + Height(v) <= 8
    decreases v
  {
    match v
    case Dict(entries) => EntriesWithinIff(entries, depth);
    case List(items) => ItemsWithinIff(items, depth);
    case _ =>
  }

  lemma {:induction false} EntriesWithinIff(entries: seq<Entry>, depth: nat)
    ensures depth <= 8 ==>
              ((forall i | 0 <= i < |entries| :: Within(entries[i].value, depth + 1)) <==>
               depth + EntryHeight(entries) <= 8)
    decreases entries
  {
    if entries != [] {
      EntryWithinIff(entries[0], depth + 1);
      EntriesWithinIff(entries[1..], depth);
      assert forall i | 0 < i < |entries| :: entries[i] == entries[1..][i - 1];
      assert forall i | 0 <= i < |entries| - 1 :: entries[1..][i] == entries[i + 1];
    }
  }

  lemma {:induction false} EntryWithinIff(entry: Entry, depth: nat)
    ensures Within(entry.value, depth) <==> depth + HeightBelow(entry) <= 8
    decreases entry
  {
    WithinIff(entry.value, depth);
  }

  lemma {:induction false} ItemsWithinIff(items: seq<Value>, depth: nat)
    ensures depth <= 8 ==>
              ((forall i | 0 <= i < |items| :: Within(items[i], depth + 1)) <==> depth + ItemHeight(items) <= 8)
    decreases items
  {
    if items != [] {
      WithinIff(items[0], depth + 1);
      ItemsWithinIff(items[1..], depth);
      assert forall i | 0 < i < |items| :: items[i] == items[1..][i - 1];
      assert forall i | 0 <= i < |items| - 1 :: items[1..][i] == items[i + 1];
    }
  }

  // ------------------------------------------------------- keys, once more

  predicate Separator(c: char) { !InWord(c) && Lowered(c) == [c] }

  lemma {:induction false} NormalJoins(a: string, c: char, b: string)
    requires Separator(c)
    ensures Normal(a + [c] + b) == Normal(a) + [c] + Normal(b)
  {
    var s := a + [c] + b;
    if a == [] {
      assert s[1..] == b;
    } else {
      assert s[1..] == a[1..] + [c] + b;
      NormalJoins(a[1..], c, b);
    }
  }

  /** Two characters between which camel case puts a separator. */
  predicate Hump(c: char, d: char) { (Lower(c) || Digit(c)) && Upper(d) }

  function Mark(c: char, rest: string): string { if rest != [] && Hump(c, rest[0]) then "_" else "" }

  lemma NormalStep(c: char, rest: string)
    ensures Normal([c] + rest) == Lowered(c) + Mark(c, rest) + Normal(rest)
  {
    assert ([c] + rest)[1..] == rest;
  }

  lemma {:induction false} NormalSplits(a: string, b: string)
    requires a != [] && b != [] && Hump(a[|a| - 1], b[0])
    ensures Normal(a + b) == Normal(a) + "_" + Normal(b)
  {
    hide Normal, Lowered;
    var c, rest := a[0], a[1..];
    assert a == [c] + rest && a + b == [c] + (rest + b);
    NormalStep(c, rest);
    NormalStep(c, rest + b);
    if rest == [] {
      assert rest + b == b && a[|a| - 1] == c;
      assert Mark(c, b) == "_" && Mark(c, rest) == "";
      NormalEmpty();
    } else {
      assert rest[|rest| - 1] == a[|a| - 1];
      NormalSplits(rest, b);
      assert Mark(c, rest + b) == Mark(c, rest);
    }
  }

  lemma NormalEmpty()
    ensures Normal("") == ""
  {
  }

  /** A word in lower case is its own token. */
  lemma {:induction false} LowerWord(w: string)
    requires forall i | 0 <= i < |w| :: Lower(w[i])
    ensures Normal(w) == w && (w != [] ==> Words(w) == [w])
  {
    if w != [] {
      LowerWord(w[1..]);
      assert w == [w[0]] + w[1..];
      NormalStep(w[0], w[1..]);
      assert Words("") == [];
      assert w[..|w|] == w && w[|w|..] == [];
      assert WordLength(w) == |w|;
    }
  }

  lemma {:induction false} WordsJoin(a: string, c: char, b: string)
    requires !InWord(c)
    ensures Words(a + [c] + b) == Words(a) + Words(b)
    decreases |a|
  {
    var s := a + [c] + b;
    if a == [] {
      assert s[1..] == b;
    } else if !InWord(a[0]) {
      assert s[1..] == a[1..] + [c] + b;
      WordsJoin(a[1..], c, b);
    } else {
      var n := WordLength(a);
      SameWordLength(s, n);
      assert s[..n] == a[..n] && s[n..] == a[n..] + [c] + b;
      WordsJoin(a[n..], c, b);
    }
  }

  lemma {:induction false} SameWordLength(s: string, n: nat)
    requires n < |s| && (forall i | 0 <= i < n :: InWord(s[i])) && !InWord(s[n])
    ensures WordLength(s) == n
  {
    if n > 0 { SameWordLength(s[1..], n - 1); }
  }

  /** Tokens do not cross separators, whatever stands around them. */
  lemma TokensJoin(a: string, c: char, b: string)
    requires Separator(c)
    ensures KeyTokens(a + [c] + b) == KeyTokens(a) + KeyTokens(b)
  {
    NormalJoins(a, c, b);
    WordsJoin(Normal(a), c, Normal(b));
  }

  /** A security-shaped term is caught inside any longer key, whichever separators set
      it off and whatever case or camel case it is written in. */
  lemma ReservedTermCaught(prefix: string, c: char, key: string, d: char, suffix: string, term: seq<string>)
    requires Separator(c) && Separator(d) && term in RESERVED && ContainsRun(KeyTokens(key), term)
    ensures !KeyOk(Some(prefix + [c] + (key + [d] + suffix)))
  {
    hide KeyTokens;
    var tokens := KeyTokens(key);
    TokensJoin(key, d, suffix);
    TokensJoin(prefix, c, key + [d] + suffix);
    var all := KeyTokens(prefix) + (tokens + KeyTokens(suffix));
    var i :| 0 <= i <= |tokens| - |term| && RunAt(tokens, term, i);
    var j := |KeyTokens(prefix)| + i;
    assert all[j..j + |term|] == tokens[i..i + |term|];
    assert RunAt(all, term, j);
  }

  /** A camel-case boundary separates like a separator. */
  lemma CamelSplits(a: string, b: string)
    requires a != [] && b != [] && Hump(a[|a| - 1], b[0])
    ensures KeyTokens(a + b) == KeyTokens(a) + KeyTokens(b)
  {
    hide Words, Normal;
    NormalSplits(a, b);
    WordsJoin(Normal(a), '_', Normal(b));
  }

  /** Nobody gets a reserved term past the check by writing it in camel case. */
  lemma CamelCaseCaught()
    ensures KeyTokens("can_spend") == ["can", "spend"] && KeyTokens("canSpend") == ["can", "spend"]
    ensures !KeyOk(Some("can_spend")) && !KeyOk(Some("canSpend"))
  {
    CamelTokens();
    var term := ["can", "spend"];
    assert RunAt(term, term, 0);
    assert ContainsRun(KeyTokens("canSpend"), term) && ContainsRun(KeyTokens("can_spend"), term);
    assert term in RESERVED;
  }

  lemma CamelTokens()
    ensures KeyTokens("can_spend") == ["can", "spend"] && KeyTokens("canSpend") == ["can", "spend"]
  {
    hide Normal, Words;
    LowerWord("can");
    LowerWord("pend");
    LowerWord("spend");
    NormalStep('S', "pend");
    assert "Spend" == ['S'] + "pend" && "spend" == ['s'] + "pend";
    assert Lowered('S') == "s" && Mark('S', "pend") == "";
    assert Normal("Spend") == "s" + "" + "pend" == "spend";
    assert KeyTokens("can") == ["can"] && KeyTokens("Spend") == ["spend"];
    assert "can" + "Spend" == "canSpend" && "can" + ['_'] + "spend" == "can_spend";
    CamelSplits("can", "Spend");
    TokensJoin("can", '_', "spend");
  }

  // ------------------------------------------------- what a key may look like

  /** The reserved terms of one word, and of two. */
  const WORDS: set<string> := {
    "permission", "permissions", "approval", "approvals", "approve", "approved", "approver", "authority", "authorities",
    "authorize", "authorized", "authorization", "admin", "superuser", "execute", "executable", "delegation", "delegate",
    "credential", "credentials", "secret", "secrets", "token", "tokens", "apikey", "password", "passwords", "passwd",
    "bearer"
  }

  const PAIRS: set<(string, string)> := {
    ("can", "spend"), ("business", "spend"), ("tool", "access"), ("api", "key"), ("access", "key"), ("private", "key")
  }

  lemma RunOfOne(tokens: seq<string>, word: string)
    ensures ContainsRun(tokens, [word]) <==> word in tokens
  {
    if word in tokens {
      var i :| 0 <= i < |tokens| && tokens[i] == word;
      assert RunAt(tokens, [word], i);
    }
    if ContainsRun(tokens, [word]) {
      var i :| 0 <= i <= |tokens| - 1 && RunAt(tokens, [word], i);
      assert tokens[i] == tokens[i..i + 1][0];
    }
  }

  lemma RunOfTwo(tokens: seq<string>, a: string, b: string)
    ensures ContainsRun(tokens, [a, b]) <==> exists i | 0 <= i < |tokens| - 1 :: tokens[i] == a && tokens[i + 1] == b
  {
    if i :| 0 <= i < |tokens| - 1 && tokens[i] == a && tokens[i + 1] == b {
      assert RunAt(tokens, [a, b], i);
    }
    if ContainsRun(tokens, [a, b]) {
      var i :| 0 <= i <= |tokens| - 2 && RunAt(tokens, [a, b], i);
      assert tokens[i] == tokens[i..i + 2][0] && tokens[i + 1] == tokens[i..i + 2][1];
    }
  }

  lemma Terms(term: seq<string>)
    ensures term in RESERVED <==>
              (|term| == 1 && term[0] in WORDS) || (|term| == 2 && (term[0], term[1]) in PAIRS)
  {
    if |term| == 1 { assert term == [term[0]]; }
    if |term| == 2 { assert term == [term[0], term[1]]; }
  }

  /** No reserved term in these tokens: no reserved word, and no reserved pair in a row. */
  lemma ReservedMeans(tokens: seq<string>)
    ensures (forall term | term in RESERVED :: !ContainsRun(tokens, term)) <==>
              && (forall word | word in tokens :: word !in WORDS)
              && (forall i | 0 <= i < |tokens| - 1 :: (tokens[i], tokens[i + 1]) !in PAIRS)
  {
    hide ContainsRun, RESERVED, WORDS, PAIRS;
    forall word ensures ContainsRun(tokens, [word]) <==> word in tokens { RunOfOne(tokens, word); }
    forall term ensures term in RESERVED <==>
                          (|term| == 1 && term[0] in WORDS) || (|term| == 2 && (term[0], term[1]) in PAIRS) {
      Terms(term);
    }
    if forall term | term in RESERVED :: !ContainsRun(tokens, term) {
      forall word | word in tokens ensures word !in WORDS { assert ContainsRun(tokens, [word]); }
      forall i | 0 <= i < |tokens| - 1 ensures (tokens[i], tokens[i + 1]) !in PAIRS {
        RunOfTwo(tokens, tokens[i], tokens[i + 1]);
      }
    }
    if && (forall word | word in tokens :: word !in WORDS)
       && (forall i | 0 <= i < |tokens| - 1 :: (tokens[i], tokens[i + 1]) !in PAIRS) {
      forall term | term in RESERVED ensures !ContainsRun(tokens, term) {
        if |term| == 1 { assert term == [term[0]]; } else {
          assert term == [term[0], term[1]];
          RunOfTwo(tokens, term[0], term[1]);
        }
      }
    }
  }

  /** A control or a line separator. */
  predicate Control(c: char) {
    c <= '\U{1F}' || '\U{7F}' <= c <= '\U{9F}' || c in {'\U{2028}', '\U{2029}'}
  }

  /** A blank that is no control. */
  predicate Spacing(c: char) {
    c in {' ', '\U{A0}', '\U{1680}', '\U{202F}', '\U{205F}', '\U{3000}'} || '\U{2000}' <= c <= '\U{200A}'
  }

  lemma CharactersMean(c: char)
    ensures Unsafe(c) <==> Control(c)
    ensures !Unsafe(c) ==> (Whitespace(c) <==> Spacing(c))
  {
  }

  /** Exactly the keys that are accepted: at most 256 characters without a control among
      them and not all blanks, whose words neither are a field of the record spelled in
      another way nor hold a reserved word or pair. */
  lemma KeyOkIff(key: string)
    ensures KeyOk(Some(key)) <==>
              && |key| <= 256 && (forall i | 0 <= i < |key| :: !Control(key[i]))
              && (exists i | 0 <= i < |key| :: !Spacing(key[i]))
              && KeyTokens(key) !in {["agent", "id"], ["display", "name"], ["role"], ["description"], ["enabled"],
                                     ["active"], ["disabled"], ["preferred", "provider", "ids"],
                                     ["required", "capabilities"], ["metadata"], ["created", "at"]}
              && (forall word | word in KeyTokens(key) :: word !in WORDS)
              && (forall i | 0 <= i < |KeyTokens(key)| - 1 :: (KeyTokens(key)[i], KeyTokens(key)[i + 1]) !in PAIRS)
    ensures !KeyOk(None)
  {
    ReservedMeans(KeyTokens(key));
    forall i | 0 <= i < |key|
      ensures Unsafe(key[i]) <==> Control(key[i])
      ensures !Unsafe(key[i]) ==> (Whitespace(key[i]) <==> Spacing(key[i]))
    {
      CharactersMean(key[i]);
    }
    hide KeyTokens, RESERVED, WORDS, PAIRS, ContainsRun, Unsafe, Control, Whitespace, Spacing;
  }
}
