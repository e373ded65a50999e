/** What audit rows may contain: every JSON tree is cut, masked and redacted before it is stored and again when read. */
module AuditSanitizer {
  import opened Strings
  import opened Wrappers

  datatype Json =
    | JNull
    | JBool(b: bool)
    | JNumber(n: real)
    | JText(s: string)
    | JList(items: seq<Json>)
    | JObject(entries: seq<(string, Json)>)

  const MAX_JSON_BYTES: nat := 16384

  const MAX_STRING_LENGTH: nat := 512

  const MAX_COLLECTION_LENGTH: nat := 50

  const MAX_DEPTH: nat := 5

  const TRUNCATED: Json := JText("[TRUNCATED_DEPTH]")

  const REDACTED: Json := JText("[REDACTED]")

  /** Which keys are blocked or masked, and the runtime's text rendering and encoded size. */
  datatype Rules = Rules(blocked: string -> bool, phone: string -> bool, render: Json -> string, bytes: Json -> nat)

  /** A text renders as itself. */
  ghost predicate RendersText(rules: Rules) {
    forall s :: rules.render(JText(s)) == s
  }

  predicate IsDigit(c: char) {
    '0' <= c <= '9'
  }

  function Digits(s: string): (r: string)
    ensures forall k :: 0 <= k < |r| ==> IsDigit(r[k])
  {
    if |s| == 0 then ""
    else Digits(s[..|s| - 1]) + if IsDigit(s[|s| - 1]) then [s[|s| - 1]] else ""
  }

  function LastFour(s: string): (r: string)
    ensures |r| <= 4 && (|s| > 0 ==> |r| > 0)
  {
    if |s| <= 4 then s else s[|s| - 4..]
  }

  function MaskPhone(rules: Rules, value: Json): Json {
    var digits := Digits(rules.render(value));
    if |digits| > 0 then JText("***" + LastFour(digits)) else REDACTED
  }

  function Cut<T>(s: seq<T>, max: nat): (r: seq<T>)
    ensures |r| <= max && (|s| <= max ==> r == s) && r <= s
  {
    if |s| <= max then s else s[..max]
  }

  function SanitizeNode(rules: Rules, value: Json, depth: nat, key: string): Json
    decreases value, 1, 0
  {
    if depth > MAX_DEPTH then TRUNCATED
    else if value == JNull then JNull
    else if key != "" && rules.blocked(key) then REDACTED
    else if key != "" && rules.phone(key) then MaskPhone(rules, value)
    else
      match value
      case JText(s) => JText(Cut(s, MAX_STRING_LENGTH))
      case JList(items) => JList(SanitizeItems(rules, value, Kept(|items|), depth + 1, key))
      case JObject(entries) => JObject(SanitizeEntries(rules, value, Kept(|entries|), depth + 1))
      case _ => value
  }

  function Kept(length: nat): nat {
    if length <= MAX_COLLECTION_LENGTH then length else MAX_COLLECTION_LENGTH
  }

  /** The first `n` items, each sanitized under the list's own key. */
  function SanitizeItems(rules: Rules, list: Json, n: nat, depth: nat, key: string): (r: seq<Json>)
    requires list.JList? && n <= |list.items|
    ensures |r| == n && forall k :: 0 <= k < n ==> r[k] == SanitizeNode(rules, list.items[k], depth, key)
    decreases list, 0, n
  {
    if n == 0 then []
    else SanitizeItems(rules, list, n - 1, depth, key) + [SanitizeNode(rules, list.items[n - 1], depth, key)]
  }

  /** The first `n` entries, each sanitized under its own key. */
  function SanitizeEntries(rules: Rules, record: Json, n: nat, depth: nat): (r: seq<(string, Json)>)
    requires record.JObject? && n <= |record.entries|
    ensures |r| == n
    ensures forall k :: 0 <= k < n ==>
      r[k] == (record.entries[k].0, SanitizeNode(rules, record.entries[k].1, depth, record.entries[k].0))
    decreases record, 0, n
  {
    if n == 0 then []
    else
      var (name, value) := record.entries[n - 1];
      SanitizeEntries(rules, record, n - 1, depth) + [(name, SanitizeNode(rules, value, depth, name))]
  }

  /** None is an absent value. */
  function Sanitize(rules: Rules, value: Option<Json>): Result<Option<Json>, string> {
    if value.None? || value.value == JNull then Success(None)
    else
      var sanitized := SanitizeNode(rules, value.value, 0, "");
      if rules.bytes(sanitized) > MAX_JSON_BYTES then Failure("AUDIT_CONTEXT_TOO_LARGE") else Success(Some(sanitized))
  }

  /** The node as it is built: the output object is filled entry by entry. */
  method BuildNode(rules: Rules, value: Json, depth: nat, key: string) returns (output: Json)
    ensures output == SanitizeNode(rules, value, depth, key)
    decreases value
  {
    if depth > MAX_DEPTH {
      return TRUNCATED;
    }
    if value == JNull {
      return JNull;
    }
    if key != "" && rules.blocked(key) {
      return REDACTED;
    }
    if key != "" && rules.phone(key) {
      return MaskPhone(rules, value);
    }
    match value {
      case JText(s) => return JText(Cut(s, MAX_STRING_LENGTH));
      case JList(items) =>
        var kept := Cut(items, MAX_COLLECTION_LENGTH);
        var built: seq<Json> := [];
        for k := 0 to |kept|
          invariant |built| == k
          invariant forall j :: 0 <= j < k ==> built[j] == SanitizeNode(rules, items[j], depth + 1, key)
        {
          var item := BuildNode(rules, items[k], depth + 1, key);
          built := built + [item];
        }
        return JList(built);
      case JObject(entries) =>
        var kept := Cut(entries, MAX_COLLECTION_LENGTH);
        var built: seq<(string, Json)> := [];
        for k := 0 to |kept|
          invariant |built| == k
          invariant forall j :: 0 <= j < k ==>
            built[j] == (entries[j].0, SanitizeNode(rules, entries[j].1, depth + 1, entries[j].0))
        {
          var entry := BuildNode(rules, entries[k].1, depth + 1, entries[k].0);
          built := built + [(entries[k].0, entry)];
        }
        return JObject(built);
      case _ => return value;
    }
  }

  // What sanitized values look like

  predicate MaskedText(s: string) {
    s == "[REDACTED]" ||
    (4 <= |s| <= 7 && s[..3] == "***" && forall k | 3 <= k < |s| :: IsDigit(s[k]))
  }

  /** Depth and breadth are bounded, blocked keys hold nothing, phone keys hold a mask. */
  predicate Clean(rules: Rules, value: Json, depth: nat, key: string)
    decreases value
  {
    if depth > MAX_DEPTH then value == TRUNCATED
    else if value == JNull then true
    else if key != "" && rules.blocked(key) then value == REDACTED
    else if key != "" && rules.phone(key) then value.JText? && MaskedText(value.s)
    else
      match value
      case JText(s) => |s| <= MAX_STRING_LENGTH
      case JList(items) =>
        |items| <= MAX_COLLECTION_LENGTH && forall k | 0 <= k < |items| :: Clean(rules, items[k], depth + 1, key)
      case JObject(entries) =>
        |entries| <= MAX_COLLECTION_LENGTH &&
        forall k | 0 <= k < |entries| :: Clean(rules, entries[k].1, depth + 1, entries[k].0)
      case _ => true
  }

  lemma MaskIsMasked(rules: Rules, value: Json)
    ensures MaskPhone(rules, value).JText? && MaskedText(MaskPhone(rules, value).s)
  {
  }

  lemma {:induction false} DigitsOfDigits(s: string)
    requires forall k :: 0 <= k < |s| ==> IsDigit(s[k])
    ensures Digits(s) == s
  {
    if |s| > 0 {
      DigitsOfDigits(s[..|s| - 1]);
    }
  }

  lemma {:induction false} DigitsConcat(a: string, b: string)
    ensures Digits(a + b) == Digits(a) + Digits(b)
  {
    if |b| == 0 {
      assert a + b == a && Digits(a) + "" == Digits(a);
    } else {
      DigitsConcat(a, b[..|b| - 1]);
      assert (a + b)[..|a + b| - 1] == a + b[..|b| - 1];
    }
  }

  lemma {:induction false} NoDigits(s: string)
    requires forall k :: 0 <= k < |s| ==> !IsDigit(s[k])
    ensures Digits(s) == ""
  {
    if |s| > 0 {
      NoDigits(s[..|s| - 1]);
    }
  }

  /** Masking leaves a text alone exactly when it is a mask already. */
  lemma MaskFixpoint(rules: Rules, s: string)
    requires RendersText(rules)
    ensures MaskPhone(rules, JText(s)) == JText(s) <==> MaskedText(s)
  {
    MaskIsMasked(rules, JText(s));
    if s == "[REDACTED]" {
      NoDigits(s);
    } else if MaskedText(s) {
      assert s == "***" + s[3..];
      NoDigits("***");
      DigitsOfDigits(s[3..]);
      DigitsConcat("***", s[3..]);
    }
  }

  /** Neither redacted nor masked by its key. */
  predicate Plain(rules: Rules, key: string) {
    !(key != "" && rules.blocked(key)) && !(key != "" && rules.phone(key))
  }

  lemma {:induction false} SanitizedIsClean(rules: Rules, value: Json, depth: nat, key: string)
    ensures Clean(rules, SanitizeNode(rules, value, depth, key), depth, key)
    decreases value, 1
  {
    if depth <= MAX_DEPTH && value != JNull && !(key != "" && rules.blocked(key)) {
      if key != "" && rules.phone(key) {
        MaskIsMasked(rules, value);
      } else if value.JList? {
        SanitizedListIsClean(rules, value, depth, key);
      } else if value.JObject? {
        SanitizedObjectIsClean(rules, value, depth, key);
      }
    }
  }

  lemma SanitizedListIsClean(rules: Rules, value: Json, depth: nat, key: string)
    requires value.JList? && depth <= MAX_DEPTH && Plain(rules, key)
    ensures Clean(rules, SanitizeNode(rules, value, depth, key), depth, key)
    decreases value, 0
  {
    var r := SanitizeItems(rules, value, Kept(|value.items|), depth + 1, key);
    forall k | 0 <= k < |r|
      ensures Clean(rules, r[k], depth + 1, key)
    {
      SanitizedIsClean(rules, value.items[k], depth + 1, key);
    }
  }

  lemma SanitizedObjectIsClean(rules: Rules, value: Json, depth: nat, key: string)
    requires value.JObject? && depth <= MAX_DEPTH && Plain(rules, key)
    ensures Clean(rules, SanitizeNode(rules, value, depth, key), depth, key)
    decreases value, 0
  {
    var r := SanitizeEntries(rules, value, Kept(|value.entries|), depth + 1);
    forall k | 0 <= k < |r|
      ensures Clean(rules, r[k].1, depth + 1, r[k].0)
    {
      SanitizedIsClean(rules, value.entries[k].1, depth + 1, value.entries[k].0);
    }
  }

  /** Sanitizing leaves a value alone exactly when it is clean. */
  lemma {:induction false} CleanIsFixpoint(rules: Rules, value: Json, depth: nat, key: string)
    requires RendersText(rules)
    ensures SanitizeNode(rules, value, depth, key) == value <==> Clean(rules, value, depth, key)
    decreases value
  {
    if depth <= MAX_DEPTH && value != JNull && !(key != "" && rules.blocked(key)) {
      if key != "" && rules.phone(key) {
        MaskIsMasked(rules, value);
        if value.JText? {
          MaskFixpoint(rules, value.s);
        }
      } else {
        match value
        case JList(items) => ListFixpoint(rules, items, depth, key);
        case JObject(entries) => ObjectFixpoint(rules, entries, depth, key);
        case _ =>
      }
    }
  }

  lemma ListFixpoint(rules: Rules, items: seq<Json>, depth: nat, key: string)
    requires RendersText(rules) && depth <= MAX_DEPTH && Plain(rules, key)
    ensures SanitizeNode(rules, JList(items), depth, key) == JList(items) <==> Clean(rules, JList(items), depth, key)
    decreases JList(items), 0
  {
    var r := SanitizeNode(rules, JList(items), depth, key).items;
    forall k | 0 <= k < |items|
      ensures SanitizeNode(rules, items[k], depth + 1, key) == items[k] <==> Clean(rules, items[k], depth + 1, key)
    {
      CleanIsFixpoint(rules, items[k], depth + 1, key);
    }
    if |items| <= MAX_COLLECTION_LENGTH {
      assert forall k :: 0 <= k < |items| ==> r[k] == SanitizeNode(rules, items[k], depth + 1, key);
      assert r == items <==> forall k :: 0 <= k < |items| ==> r[k] == items[k];
    }
  }

  lemma ObjectFixpoint(rules: Rules, entries: seq<(string, Json)>, depth: nat, key: string)
    requires RendersText(rules) && depth <= MAX_DEPTH && Plain(rules, key)
    ensures SanitizeNode(rules, JObject(entries), depth, key) == JObject(entries) <==> Clean(rules, JObject(entries), depth, key)
    decreases JObject(entries), 0
  {
    var r := SanitizeNode(rules, JObject(entries), depth, key).entries;
    forall k | 0 <= k < |entries|
      ensures SanitizeNode(rules, entries[k].1, depth + 1, entries[k].0) == entries[k].1 <==>
              Clean(rules, entries[k].1, depth + 1, entries[k].0)
    {
      CleanIsFixpoint(rules, entries[k].1, depth + 1, entries[k].0);
    }
    if |entries| <= MAX_COLLECTION_LENGTH {
      assert forall k :: 0 <= k < |entries| ==>
        r[k] == (entries[k].0, SanitizeNode(rules, entries[k].1, depth + 1, entries[k].0));
      assert r == entries <==> forall k :: 0 <= k < |entries| ==> r[k] == entries[k];
    }
  }

  /** Sanitizing twice is sanitizing once. */
  lemma SanitizeTwice(rules: Rules, value: Json, depth: nat, key: string)
    requires RendersText(rules)
    ensures var once := SanitizeNode(rules, value, depth, key);
      SanitizeNode(rules, once, depth, key) == once
  {
    SanitizedIsClean(rules, value, depth, key);
    CleanIsFixpoint(rules, SanitizeNode(rules, value, depth, key), depth, key);
  }

  /** So what was stored is read back unchanged, and reading never fails on size. */
  lemma ReadingChangesNothing(rules: Rules, value: Option<Json>)
    requires RendersText(rules) && Sanitize(rules, value).Success?
    ensures Sanitize(rules, Sanitize(rules, value).value) == Sanitize(rules, value)
  {
    if value.Some? {
      SanitizeTwice(rules, value.value, 0, "");
    }
  }

  // Every place in the tree

  datatype Step = Item(index: nat) | Entry(index: nat)

  /** The value and its governing key at the end of a path. */
  function At(value: Json, key: string, path: seq<Step>): Option<(Json, string)>
    decreases |path|
  {
    if |path| == 0 then Some((value, key))
    else
      match path[0]
      case Item(k) => if value.JList? && k < |value.items| then At(value.items[k], key, path[1..]) else None
      case Entry(k) =>
        if value.JObject? && k < |value.entries| then At(value.entries[k].1, value.entries[k].0, path[1..]) else None
  }

  /** One step down the output is the sanitized value one step down the input. */
  lemma StepDown(rules: Rules, value: Json, depth: nat, key: string, step: Step)
    requires At(SanitizeNode(rules, value, depth, key), key, [step]).Some?
    ensures At(value, key, [step]).Some?
    ensures var (source, governing) := At(value, key, [step]).value;
      At(SanitizeNode(rules, value, depth, key), key, [step]).value == (SanitizeNode(rules, source, depth + 1, governing), governing)
  {
    MaskIsMasked(rules, value);
    assert [step][1..] == [];
  }

  lemma AtStep(value: Json, key: string, path: seq<Step>)
    requires |path| > 0
    ensures At(value, key, path) ==
            match At(value, key, [path[0]])
            case None => None
            case Some((child, governing)) => At(child, governing, path[1..])
  {
    assert [path[0]][1..] == [];
  }

  /** Whatever stands in the output stands for the sanitized value at the same place of the input. */
  lemma {:induction false} SamePlace(rules: Rules, value: Json, depth: nat, key: string, path: seq<Step>)
    requires At(SanitizeNode(rules, value, depth, key), key, path).Some?
    ensures At(value, key, path).Some?
    ensures var (source, governing) := At(value, key, path).value;
      At(SanitizeNode(rules, value, depth, key), key, path).value == (SanitizeNode(rules, source, depth + |path|, governing), governing)
    decreases |path|
  {
    hide SanitizeNode;
    if |path| > 0 {
      hide At;
      AtStep(value, key, path);
      AtStep(SanitizeNode(rules, value, depth, key), key, path);
      StepDown(rules, value, depth, key, path[0]);
      var (child, governing) := At(value, key, [path[0]]).value;
      SamePlace(rules, child, depth + 1, governing, path[1..]);
    }
  }

  /**
   * At every place under a blocked key the output is null when the input was, and otherwise the
   * redaction marker; at the depth limit it is the truncation marker instead, even for null.
   */
  lemma BlockedIsRedacted(rules: Rules, value: Json, path: seq<Step>)
    requires At(SanitizeNode(rules, value, 0, ""), "", path).Some?
    requires var governing := At(SanitizeNode(rules, value, 0, ""), "", path).value.1; governing != "" && rules.blocked(governing)
    ensures At(value, "", path).Some?
    ensures At(SanitizeNode(rules, value, 0, ""), "", path).value.0 ==
            if |path| > MAX_DEPTH then TRUNCATED else if At(value, "", path).value.0 == JNull then JNull else REDACTED
  {
    SamePlace(rules, value, 0, "", path);
  }

  /** One object inside another, `n` times, around an innermost object that holds the value under `secret`. */
  function Nested(n: nat, outer: string, secret: string, value: Json): Json {
    JObject([if n == 0 then (secret, value) else (outer, Nested(n - 1, outer, secret, value))])
  }

  function Down(n: nat): seq<Step> {
    if n == 0 then [] else [Entry(0)] + Down(n - 1)
  }

  lemma {:induction false} NestedSanitizes(rules: Rules, n: nat, outer: string, secret: string, value: Json, depth: nat, key: string)
    requires depth + n == MAX_DEPTH
    requires outer != "" && !rules.blocked(outer) && !rules.phone(outer)
    requires key == "" || key == outer
    ensures SanitizeNode(rules, Nested(n, outer, secret, value), depth, key) == Nested(n, outer, secret, TRUNCATED)
  {
    var node := Nested(n, outer, secret, value);
    if n > 0 {
      NestedSanitizes(rules, n - 1, outer, secret, value, depth + 1, outer);
    }
    assert SanitizeNode(rules, node, depth, key) == JObject(SanitizeEntries(rules, node, 1, depth + 1));
    assert SanitizeEntries(rules, node, 1, depth + 1)[0] ==
           (node.entries[0].0, SanitizeNode(rules, node.entries[0].1, depth + 1, node.entries[0].0));
  }

  lemma {:induction false} NestedAt(n: nat, outer: string, secret: string, value: Json, key: string)
    ensures At(Nested(n, outer, secret, value), key, Down(n + 1)) == Some((value, secret))
  {
    assert Down(n + 1)[1..] == Down(n);
    if n > 0 {
      NestedAt(n - 1, outer, secret, value, outer);
    }
  }

  /** At depth six a value under a blocked key is not redacted, and not even null is left alone. */
  lemma DeepBlockedIsTruncated(rules: Rules, outer: string, secret: string, value: Json)
    requires outer != "" && !rules.blocked(outer) && !rules.phone(outer)
    requires secret != "" && rules.blocked(secret)
    ensures var deep := Nested(MAX_DEPTH, outer, secret, value);
      && At(deep, "", Down(6)) == Some((value, secret))
      && At(SanitizeNode(rules, deep, 0, ""), "", Down(6)) == Some((TRUNCATED, secret))
      && TRUNCATED !in {JNull, REDACTED}
  {
    NestedSanitizes(rules, MAX_DEPTH, outer, secret, value, 0, "");
    NestedAt(MAX_DEPTH, outer, secret, value, "");
    NestedAt(MAX_DEPTH, outer, secret, TRUNCATED, "");
  }

  lemma TruncatedIsLeaf(rules: Rules, value: Json, depth: nat, key: string, step: Step)
    requires At(SanitizeNode(rules, value, depth, key), key, [step]).Some?
    ensures depth <= MAX_DEPTH
  {
  }

  /** No path in the output is longer than six steps. */
  lemma {:induction false} DepthIsBounded(rules: Rules, value: Json, depth: nat, key: string, path: seq<Step>)
    requires depth <= MAX_DEPTH + 1
    requires At(SanitizeNode(rules, value, depth, key), key, path).Some?
    ensures depth + |path| <= MAX_DEPTH + 1
    decreases |path|
  {
    if |path| > 0 {
      hide SanitizeNode, At;
      AtStep(SanitizeNode(rules, value, depth, key), key, path);
      TruncatedIsLeaf(rules, value, depth, key, path[0]);
      StepDown(rules, value, depth, key, path[0]);
      var (child, governing) := At(value, key, [path[0]]).value;
      DepthIsBounded(rules, child, depth + 1, governing, path[1..]);
    }
  }

  // What is kept

  function AtMost(n: nat, limit: nat): nat {
    if n <= limit then n else limit
  }

  /** Under a plain key a text keeps its first 512 characters, and lists and objects keep their first 50 members. */
  lemma PlainKeeps(rules: Rules, value: Json, depth: nat, key: string)
    requires depth <= 5 && Plain(rules, key)
    ensures var r := SanitizeNode(rules, value, depth, key);
      match value
      case JText(s) => r.JText? && r.s == s[..AtMost(|s|, 512)]
      case JList(items) =>
        r.JList? && |r.items| == AtMost(|items|, 50) &&
        forall k :: 0 <= k < |r.items| ==> r.items[k] == SanitizeNode(rules, items[k], depth + 1, key)
      case JObject(entries) =>
        r.JObject? && |r.entries| == AtMost(|entries|, 50) &&
        forall k :: 0 <= k < |r.entries| ==>
          r.entries[k] == (entries[k].0, SanitizeNode(rules, entries[k].1, depth + 1, entries[k].0))
      case _ => r == value
  {
  }

  /** A mask shows the last four digits, or all there are; without digits there is nothing to show. */
  lemma MaskShows(rules: Rules, value: Json)
    ensures var digits := Digits(rules.render(value));
      MaskPhone(rules, value) ==
      if |digits| == 0 then JText("[REDACTED]") else JText("***" + digits[|digits| - AtMost(|digits|, 4)..])
  {
    var digits := Digits(rules.render(value));
    assert |digits| <= 4 ==> digits[0..] == digits;
  }

  /** Nothing is stored for null or nothing; anything else is refused exactly when its sanitized form exceeds 16384 bytes. */
  lemma StoredExactly(rules: Rules, value: Option<Json>)
    ensures var r := Sanitize(rules, value);
      && (r == Success(None) <==> value.None? || value == Some(JNull))
      && (r.Failure? <==>
            value.Some? && value.value != JNull && rules.bytes(SanitizeNode(rules, value.value, 0, "")) > 16384)
      && (r.Success? && r.value.Some? ==> r.value.value == SanitizeNode(rules, value.value, 0, ""))
  {
  }

  // The keys themselves

  predicate MentionsAt(key: string, word: string, i: nat) {
    i + |word| <= |key| && Lower(key[i..i + |word|]) == word
  }

  /** The key has the word somewhere in it, in any letter case. */
  predicate Mentions(key: string, word: string) {
    exists i: nat | 0 <= i <= |key| :: MentionsAt(key, word, i)
  }

  const BLOCKED_WORDS: seq<string> := [
    "password", "secret", "token", "cookie", "authorization", "qr", "string", "credential", "card", "cvv", "sessionauth", "apikey"]

  const PHONE_WORDS: seq<string> := ["phone", "telefono", "mobile", "whatsapp", "jid"]

  predicate MentionsOne(key: string, words: seq<string>) {
    exists k | 0 <= k < |words| :: Mentions(key, words[k])
  }

  function ServiceRules(render: Json -> string, bytes: Json -> nat): Rules {
    Rules(key => MentionsOne(key, BLOCKED_WORDS), key => MentionsOne(key, PHONE_WORDS), render, bytes)
  }

  lemma MentionGrows(before: string, key: string, after: string, word: string)
    requires Mentions(key, word)
    ensures Mentions(before + key + after, word)
  {
    var i: nat :| 0 <= i <= |key| && MentionsAt(key, word, i);
    var whole, from := before + key + after, |before| + i;
    assert whole[from..from + |word|] == key[i..i + |word|];
    assert MentionsAt(whole, word, from);
  }

  /** Whatever a key adds around one of the words, its value is redacted: a longer key is never less blocked. */
  lemma BlockedKeysStayBlocked(render: Json -> string, bytes: Json -> nat, before: string, key: string, after: string,
                               value: Json, depth: nat)
    requires depth <= 5 && value != JNull && MentionsOne(key, BLOCKED_WORDS)
    ensures SanitizeNode(ServiceRules(render, bytes), value, depth, before + key + after) == JText("[REDACTED]")
  {
    var whole := before + key + after;
    var k :| 0 <= k < |BLOCKED_WORDS| && Mentions(key, BLOCKED_WORDS[k]);
    MentionGrows(before, key, after, BLOCKED_WORDS[k]);
    assert MentionsOne(whole, BLOCKED_WORDS);
    assert whole != "" by {
      assert |BLOCKED_WORDS[k]| > 0;
    }
  }

  /** Each word of the vocabulary, in any letter case, is blocked or masked. */
  lemma WordsAreListed(key: string)
    requires Lower(key) in {"password", "secret", "token", "cookie", "authorization", "qr", "string", "credential", "card", "cvv",
                            "sessionauth", "apikey", "phone", "telefono", "mobile", "whatsapp", "jid"}
    ensures Lower(key) in {"phone", "telefono", "mobile", "whatsapp", "jid"} ==> MentionsOne(key, PHONE_WORDS)
    ensures Lower(key) !in {"phone", "telefono", "mobile", "whatsapp", "jid"} ==> MentionsOne(key, BLOCKED_WORDS)
  {
    assert key[0..|key|] == key;
    assert MentionsAt(key, Lower(key), 0);
    if Lower(key) in PHONE_WORDS {
      var k :| 0 <= k < |PHONE_WORDS| && PHONE_WORDS[k] == Lower(key);
    } else {
      assert Lower(key) in BLOCKED_WORDS;
      var k :| 0 <= k < |BLOCKED_WORDS| && BLOCKED_WORDS[k] == Lower(key);
    }
  }
}
