/** The assistant catalog page of src/components/AssistantDiscovery.tsx: tool-name
    formatting, tool colours, and the tab/search filter followed by the chosen sort.
    `localeCompare` and date parsing are abstract: the sort takes them as functions
    to integers. */
module Discovery {
  import opened Types
  import opened Strings
  import opened Lists

  // ---------------------------------------------------------- tool names

  /** `s.split(sep)`: the pieces between separators, always at least one. */
  function SplitOn(s: string, sep: char): (parts: seq<string>)
    ensures |parts| >= 1
    ensures forall k :: 0 <= k < |parts| ==> sep !in parts[k]
  {
    if s == "" then [""]
    else
      var rest := SplitOn(s[1..], sep);
      if s[0] == sep then [""] + rest
      else [[s[0]] + rest[0]] + rest[1..]
  }

  /** `parts.join(sep)` */
  function JoinWith(parts: seq<string>, sep: string): string
  {
    if parts == [] then ""
    else if |parts| == 1 then parts[0]
    else parts[0] + sep + JoinWith(parts[1..], sep)
  }

  /** Joining the pieces of a split with the separator gives back the string. */
  lemma {:induction false} JoinSplit(s: string, sep: char)
    ensures JoinWith(SplitOn(s, sep), [sep]) == s
  {
    if s != "" {
      var rest := SplitOn(s[1..], sep);
      JoinSplit(s[1..], sep);
      if s[0] == sep {
        assert [""] + rest == SplitOn(s, sep);
        assert s == [sep] + s[1..];
      } else {
        JoinFirstChar(s[0], rest[0], rest[1..], [sep]);
        assert [rest[0]] + rest[1..] == rest;
        assert s == [s[0]] + s[1..];
      }
    }
  }

  /** Splitting a join of separator-free pieces gives back the pieces. */
  lemma {:induction false} SplitJoin(parts: seq<string>, sep: char)
    requires |parts| >= 1
    requires forall k :: 0 <= k < |parts| ==> sep !in parts[k]
    ensures SplitOn(JoinWith(parts, [sep]), sep) == parts
  {
    if |parts| == 1 {
      SplitWord(parts[0], [], sep);
      assert parts[0] + "" == parts[0];
    } else {
      SplitJoin(parts[1..], sep);
      var tail := JoinWith(parts[1..], [sep]);
      assert JoinWith(parts, [sep]) == parts[0] + ([sep] + tail);
      SplitWord(parts[0], [sep] + tail, sep);
      assert SplitOn([sep] + tail, sep) == [""] + parts[1..] by {
        assert ([sep] + tail)[1..] == tail;
      }
      assert parts[0] + "" == parts[0];
      assert [parts[0]] + parts[1..] == parts;
    }
  }

  /** A separator-free word in front of text joins the text's first piece. */
  lemma {:induction false} SplitWord(w: string, t: string, sep: char)
    requires sep !in w
    ensures var r := SplitOn(t, sep); SplitOn(w + t, sep) == [w + r[0]] + r[1..]
  {
    if w != "" {
      SplitWord(w[1..], t, sep);
      assert (w + t)[1..] == w[1..] + t;
      assert (w + t)[0] == w[0];
      assert [w[0]] + (w[1..] + SplitOn(t, sep)[0]) == w + SplitOn(t, sep)[0];
    } else {
      var r := SplitOn(t, sep);
      assert w + t == t && w + r[0] == r[0];
      assert [r[0]] + r[1..] == r;
    }
  }

  /** Joining with a character added in front of the first piece adds it in front. */
  lemma JoinFirstChar(c: char, w: string, rest: seq<string>, sep: string)
    ensures JoinWith([[c] + w] + rest, sep) == [c] + JoinWith([w] + rest, sep)
  {
    if rest != [] {
      assert ([[c] + w] + rest)[1..] == rest;
      assert ([w] + rest)[1..] == rest;
    }
  }

  /** `word.charAt(0).toUpperCase() + word.slice(1)` */
  function Capitalize(w: string): string
  {
    if w == "" then "" else [UpperChar(w[0])] + w[1..]
  }

  function CapitalizeAll(ws: seq<string>): (r: seq<string>)
    ensures |r| == |ws| && forall k :: 0 <= k < |ws| ==> r[k] == Capitalize(ws[k])
  {
    if ws == [] then [] else [Capitalize(ws[0])] + CapitalizeAll(ws[1..])
  }

  /** `formatToolName` */
  function FormatToolName(tool: string): string
  {
    JoinWith(CapitalizeAll(SplitOn(tool, '_')), " ")
  }

  /** The character the formatting puts at a position: a space for `_`, the upper case of
      the first character of each piece, every other character as it is. */
  function FormattedChar(t: string, i: int, start: bool): char
    requires 0 <= i < |t|
  {
    if t[i] == '_' then ' '
    else if (if i == 0 then start else t[i - 1] == '_') then UpperChar(t[i])
    else t[i]
  }

  /** The formatting character by character; `start` says whether the first character
      begins a piece. */
  function Formatted(t: string, start: bool): (r: string)
    ensures |r| == |t|
    ensures forall i :: 0 <= i < |t| ==> r[i] == FormattedChar(t, i, start)
  {
    if t == "" then ""
    else
      var rest := Formatted(t[1..], t[0] == '_');
      var c := if t[0] == '_' then ' ' else if start then UpperChar(t[0]) else t[0];
      assert forall i :: 1 <= i < |t| ==> FormattedChar(t[1..], i - 1, t[0] == '_') == FormattedChar(t, i, start);
      [c] + rest
  }

  /** The pieces of a split, the first capitalised only when `start`. */
  function CapitalizeFrom(ws: seq<string>, start: bool): seq<string>
    requires |ws| >= 1
  {
    if start then CapitalizeAll(ws) else [ws[0]] + CapitalizeAll(ws[1..])
  }

  lemma {:induction false} FormattedIsJoin(t: string, start: bool)
    ensures JoinWith(CapitalizeFrom(SplitOn(t, '_'), start), " ") == Formatted(t, start)
  {
    if t != "" {
      var rest := SplitOn(t[1..], '_');
      if t[0] == '_' {
        FormattedIsJoin(t[1..], true);
        var ws := SplitOn(t, '_');
        assert ws == [""] + rest;
        assert CapitalizeFrom(ws, start) == [""] + CapitalizeAll(rest) by {
          assert CapitalizeAll(ws) == [Capitalize("")] + CapitalizeAll(rest);
        }
        assert CapitalizeAll(rest) == CapitalizeFrom(rest, true);
        assert ([""] + CapitalizeAll(rest))[1..] == CapitalizeAll(rest);
      } else {
        FormattedIsJoin(t[1..], false);
        var ws := SplitOn(t, '_');
        var w := rest[0];
        assert ws == [[t[0]] + w] + rest[1..];
        var c := if start then UpperChar(t[0]) else t[0];
        assert CapitalizeFrom(ws, start) == [[c] + w] + CapitalizeAll(rest[1..]) by {
          if start {
            assert CapitalizeAll(ws) == [Capitalize([t[0]] + w)] + CapitalizeAll(ws[1..]);
            assert ws[1..] == rest[1..];
            assert ([t[0]] + w)[1..] == w;
          } else {
            assert ws[1..] == rest[1..];
          }
        }
        JoinFirstChar(c, w, CapitalizeAll(rest[1..]), " ");
        assert CapitalizeFrom(rest, false) == [w] + CapitalizeAll(rest[1..]);
      }
    }
  }

  /** `formatToolName` works character by character: it keeps the length, turns each `_`
      into a space and upper-cases the first character of the name and each character
      after a `_`. */
  lemma FormatToolNameChars(tool: string)
    ensures |FormatToolName(tool)| == |tool|
    ensures forall i :: 0 <= i < |tool| ==> FormatToolName(tool)[i] == FormattedChar(tool, i, true)
  {
    FormattedIsJoin(tool, true);
  }

  lemma FormatCodeInterpreter(t: string)
    requires t == "code_interpreter"
    ensures FormatToolName(t) == "Code Interpreter"
  {
    FormatToolNameChars(t);
    var r := FormatToolName(t);
    var e := "Code Interpreter";
    assert r[0] == e[0] && r[1] == e[1] && r[2] == e[2] && r[3] == e[3];
    assert r[4] == e[4] && r[5] == e[5] && r[6] == e[6] && r[7] == e[7];
    assert r[8] == e[8] && r[9] == e[9] && r[10] == e[10] && r[11] == e[11];
    assert r[12] == e[12] && r[13] == e[13] && r[14] == e[14] && r[15] == e[15];
  }

  // ---------------------------------------------------------- tool colours

  const GrayColor := "bg-gray-100 text-gray-700 border-gray-200 dark:bg-gray-800/40 dark:text-gray-300 dark:border-gray-700"

  /** The colour table of `getToolColor`, keyed by hyphenated tool ids. */
  const ToolColors: map<string, string> := map[
    "web-search" := "bg-blue-100 text-blue-700 border-blue-200 dark:bg-blue-900/40 dark:text-blue-300 dark:border-blue-800",
    "code-interpreter" := "bg-green-100 text-green-700 border-green-200 dark:bg-green-900/40 dark:text-green-300 dark:border-green-800",
    "image-generation" := "bg-purple-100 text-purple-700 border-purple-200 dark:bg-purple-900/40 dark:text-purple-300 dark:border-purple-800",
    "file-upload" := "bg-orange-100 text-orange-700 border-orange-200 dark:bg-orange-900/40 dark:text-orange-300 dark:border-orange-800",
    "data-analysis" := "bg-cyan-100 text-cyan-700 border-cyan-200 dark:bg-cyan-900/40 dark:text-cyan-300 dark:border-cyan-800",
    "document-search" := "bg-indigo-100 text-indigo-700 border-indigo-200 dark:bg-indigo-900/40 dark:text-indigo-300 dark:border-indigo-800",
    "api-call" := "bg-pink-100 text-pink-700 border-pink-200 dark:bg-pink-900/40 dark:text-pink-300 dark:border-pink-800"
  ]

  /** `getToolColor`: the table's entry, or gray for any other id (no entry is empty). */
  function ToolColor(tool: string): (c: string)
    ensures tool in ToolColors ==> c == ToolColors[tool]
    ensures tool !in ToolColors ==> c == GrayColor
  {
    if tool in ToolColors && ToolColors[tool] != "" then ToolColors[tool] else GrayColor
  }

  /** Every id in the colour table has a hyphen and no underscore. */
  lemma ToolColorKeysAreHyphenated()
    ensures forall k :: k in ToolColors ==> '-' in k && '_' !in k
  {
  }

  /** An id with an underscore is always shown gray. */
  lemma UnderscoreIdIsGray(tool: string)
    requires '_' in tool
    ensures ToolColor(tool) == GrayColor
  {
    ToolColorKeysAreHyphenated();
  }

  // ------------------------------------------------------- filter and sort

  datatype Tab = AllTab | RecommendedTab | YoursTab | FavoritesTab
  datatype SortBy = Subscriptions | Title | Updated

  /** The page opens on the favourites tab, sorted by subscriptions. */
  const InitialTab := FavoritesTab
  const InitialSort := Subscriptions

  /** The tab conditions of the filter. */
  predicate InTab(a: Assistant, tab: Tab, favorites: seq<string>)
  {
    match tab
    case AllTab => true
    case RecommendedTab => a.createdBy == "system"
    case YoursTab => a.createdBy == "user"
    case FavoritesTab => a.id in favorites
  }

  /** Some tool's formatted name, lower-cased, contains `q`. */
  predicate SomeToolMatches(tools: seq<string>, q: string)
  {
    exists k :: 0 <= k < |tools| && Contains(Lower(FormatToolName(tools[k])), q)
  }

  /** The search condition: none for an empty query; otherwise the lower-cased query occurs
      in the lower-cased name, description or some formatted tool name. */
  predicate MatchesQuery(a: Assistant, query: string)
  {
    query == "" ||
    (var q := Lower(query);
     Contains(Lower(a.name), q) || Contains(Lower(a.description), q) || SomeToolMatches(a.allowedTools, q))
  }

  predicate Keep(a: Assistant, tab: Tab, favorites: seq<string>, query: string)
  {
    InTab(a, tab, favorites) && MatchesQuery(a, query)
  }

  function KeepFn(tab: Tab, favorites: seq<string>, query: string): Assistant -> bool
  {
    (a: Assistant) => Keep(a, tab, favorites, query)
  }

  /** `subscriptionCount || 0` */
  function Count(a: Assistant): int
  {
    if a.subscriptionCount.Some? then a.subscriptionCount.value else 0
  }

  /** `new Date(updatedAt || 0).getTime()`, with the parse of a date string as `timeOf`. */
  function UpdatedTime(a: Assistant, timeOf: string -> int): int
  {
    if a.updatedAt.Some? && a.updatedAt.value != "" then timeOf(a.updatedAt.value) else 0
  }

  /** The sort's comparator as a key to sort ascending by: titles by their collation rank,
      dates and counts descending. */
  function SortKey(a: Assistant, sortBy: SortBy, titleRank: string -> int, timeOf: string -> int): int
  {
    match sortBy
    case Title => titleRank(a.name)
    case Updated => -UpdatedTime(a, timeOf)
    case Subscriptions => -Count(a)
  }

  function KeyFn(sortBy: SortBy, titleRank: string -> int, timeOf: string -> int): Assistant -> int
  {
    (a: Assistant) => SortKey(a, sortBy, titleRank, timeOf)
  }

  predicate SortedBy<T>(s: seq<T>, key: T -> int)
  {
    forall i, j :: 0 <= i < j < |s| ==> key(s[i]) <= key(s[j])
  }

  /** `x` placed before the first element whose key is not smaller. */
  function Insert<T>(x: T, s: seq<T>, key: T -> int): (r: seq<T>)
    ensures |r| == |s| + 1
  {
    if s == [] || key(x) <= key(s[0]) then [x] + s
    else [s[0]] + Insert(x, s[1..], key)
  }

  /** Inserting into a sorted list keeps it sorted; the new head is `x` or the old head. */
  lemma {:induction false} InsertSorted<T>(x: T, s: seq<T>, key: T -> int)
    requires SortedBy(s, key)
    ensures SortedBy(Insert(x, s, key), key)
    ensures key(Insert(x, s, key)[0]) == key(x) || (s != [] && key(Insert(x, s, key)[0]) == key(s[0]))
  {
    if s != [] && key(x) > key(s[0]) {
      InsertSorted(x, s[1..], key);
      var rest := Insert(x, s[1..], key);
      assert key(s[0]) <= key(rest[0]);
      var r := [s[0]] + rest;
      forall i, j | 0 <= i < j < |r| ensures key(r[i]) <= key(r[j]) {
        if i > 0 {
          assert r[i] == rest[i - 1] && r[j] == rest[j - 1];
        } else {
          assert r[j] == rest[j - 1];
          if j > 1 { assert rest[0] == r[1]; }
        }
      }
    }
  }

  /** Inserting adds exactly `x`. */
  lemma {:induction false} InsertPermutes<T>(x: T, s: seq<T>, key: T -> int)
    ensures multiset(Insert(x, s, key)) == multiset(s) + multiset{x}
  {
    if s != [] && key(x) > key(s[0]) {
      InsertPermutes(x, s[1..], key);
      assert s == [s[0]] + s[1..];
    }
  }

  /** `Array.prototype.sort` with a key comparator: sorted, and a permutation. */
  function Sort<T>(s: seq<T>, key: T -> int): (r: seq<T>)
    ensures SortedBy(r, key)
    ensures multiset(r) == multiset(s)
  {
    if s == [] then []
    else
      var t := Sort(s[1..], key);
      InsertSorted(s[0], t, key);
      InsertPermutes(s[0], t, key);
      assert s == [s[0]] + s[1..];
      Insert(s[0], t, key)
  }

  function KeyIs<T>(key: T -> int, k: int): T -> bool
  {
    (x: T) => key(x) == k
  }

  lemma {:induction false} InsertStable<T(!new)>(x: T, s: seq<T>, key: T -> int, k: int)
    ensures Filter(Insert(x, s, key), KeyIs(key, k)) ==
      if key(x) == k then [x] + Filter(s, KeyIs(key, k)) else Filter(s, KeyIs(key, k))
  {
    var p := KeyIs(key, k);
    if s == [] || key(x) <= key(s[0]) {
      assert ([x] + s)[1..] == s;
    } else {
      InsertStable(x, s[1..], key, k);
      var rest := Insert(x, s[1..], key);
      assert Insert(x, s, key) == [s[0]] + rest;
      assert ([s[0]] + rest)[1..] == rest;
      assert s == [s[0]] + s[1..];
      var fs := Filter(s[1..], p);
      assert Filter(s, p) == if p(s[0]) then [s[0]] + fs else fs;
      assert Filter([s[0]] + rest, p) == if p(s[0]) then [s[0]] + Filter(rest, p) else Filter(rest, p);
      if key(x) == k {
        assert !p(s[0]);
      }
    }
  }

  /** The sort is stable: the elements of each key keep their relative order. */
  lemma {:induction false} SortStable<T(!new)>(s: seq<T>, key: T -> int, k: int)
    ensures Filter(Sort(s, key), KeyIs(key, k)) == Filter(s, KeyIs(key, k))
  {
    if s != [] {
      SortStable(s[1..], key, k);
      InsertStable(s[0], Sort(s[1..], key), key, k);
      assert s == [s[0]] + s[1..];
    }
  }

  /** `filteredAssistants`: the assistants the tab and the query keep, sorted. */
  function Visible(assistants: seq<Assistant>, favorites: seq<string>, tab: Tab, query: string,
                   sortBy: SortBy, titleRank: string -> int, timeOf: string -> int): (r: seq<Assistant>)
    ensures SortedBy(r, KeyFn(sortBy, titleRank, timeOf))
  {
    Sort(Filter(assistants, KeepFn(tab, favorites, query)), KeyFn(sortBy, titleRank, timeOf))
  }

  /** The list shown is a reordering of the kept assistants: each kept assistant as often as
      in the input, nothing else, and never more than the input. */
  lemma VisibleContents(assistants: seq<Assistant>, favorites: seq<string>, tab: Tab, query: string,
                        sortBy: SortBy, titleRank: string -> int, timeOf: string -> int)
    ensures var v := Visible(assistants, favorites, tab, query, sortBy, titleRank, timeOf);
      && |v| <= |assistants|
      && (forall a :: multiset(v)[a] == if Keep(a, tab, favorites, query) then multiset(assistants)[a] else 0)
      && (forall a :: a in v <==> a in assistants && InTab(a, tab, favorites) && MatchesQuery(a, query))
  {
    var p := KeepFn(tab, favorites, query);
    FilterCount(assistants, p);
    var f := Filter(assistants, p);
    var v := Visible(assistants, favorites, tab, query, sortBy, titleRank, timeOf);
    assert multiset(v) == multiset(f);
    assert |v| == |multiset(v)| == |multiset(f)| == |f|;
    forall a ensures a in v <==> a in f {
      assert a in v <==> a in multiset(v);
      assert a in f <==> a in multiset(f);
    }
  }

  /** The order of the list shown, for each sort. */
  lemma VisibleOrder(assistants: seq<Assistant>, favorites: seq<string>, tab: Tab, query: string,
                     sortBy: SortBy, titleRank: string -> int, timeOf: string -> int)
    ensures var v := Visible(assistants, favorites, tab, query, sortBy, titleRank, timeOf);
      && (sortBy == Subscriptions ==> forall i, j :: 0 <= i < j < |v| ==> Count(v[i]) >= Count(v[j]))
      && (sortBy == Updated ==> forall i, j :: 0 <= i < j < |v| ==> UpdatedTime(v[i], timeOf) >= UpdatedTime(v[j], timeOf))
      && (sortBy == Title ==> forall i, j :: 0 <= i < j < |v| ==> titleRank(v[i].name) <= titleRank(v[j].name))
  {
    var v := Visible(assistants, favorites, tab, query, sortBy, titleRank, timeOf);
    var key := KeyFn(sortBy, titleRank, timeOf);
    assert SortedBy(v, key);
    forall i, j | 0 <= i < j < |v| ensures key(v[i]) <= key(v[j]) { }
  }

  /** Assistants that tie under the sort stay in catalog order. */
  lemma VisibleTiesKeepOrder(assistants: seq<Assistant>, favorites: seq<string>, tab: Tab, query: string,
                             sortBy: SortBy, titleRank: string -> int, timeOf: string -> int, k: int)
    ensures var key := KeyFn(sortBy, titleRank, timeOf);
      Filter(Visible(assistants, favorites, tab, query, sortBy, titleRank, timeOf), KeyIs(key, k))
      == Filter(Filter(assistants, KeepFn(tab, favorites, query)), KeyIs(key, k))
  {
    SortStable(Filter(assistants, KeepFn(tab, favorites, query)), KeyFn(sortBy, titleRank, timeOf), k);
  }

  /** The page as it first opens, with an empty query: the favourites in the catalog, and
      nothing else, in order of non-increasing subscription count. */
  lemma InitialPageShowsFavorites(assistants: seq<Assistant>, favorites: seq<string>,
                                  titleRank: string -> int, timeOf: string -> int)
    ensures var v := Visible(assistants, favorites, InitialTab, "", InitialSort, titleRank, timeOf);
      && (forall a :: a in v <==> a in assistants && a.id in favorites)
      && (forall i, j :: 0 <= i < j < |v| ==> Count(v[i]) >= Count(v[j]))
  {
    VisibleContents(assistants, favorites, InitialTab, "", InitialSort, titleRank, timeOf);
    VisibleOrder(assistants, favorites, InitialTab, "", InitialSort, titleRank, timeOf);
  }

  /** The tab conditions, one by one. */
  lemma TabMeaning(a: Assistant, favorites: seq<string>)
    ensures InTab(a, AllTab, favorites)
    ensures InTab(a, RecommendedTab, favorites) <==> a.createdBy == "system"
    ensures InTab(a, YoursTab, favorites) <==> a.createdBy == "user"
    ensures InTab(a, FavoritesTab, favorites) <==> a.id in favorites
  {
  }

  /** Edit and delete are offered for the selected assistant only when one of the user's own
      assistants has its id: `userAssistants.some(a => a.id === selected.id)`. */
  function CanManage(userAssistants: seq<Assistant>, selected: Assistant): (b: bool)
    ensures b <==> exists k :: 0 <= k < |userAssistants| && userAssistants[k].id == selected.id
  {
    FindIndex(userAssistants, (a: Assistant) => a.id == selected.id) >= 0
  }
}
