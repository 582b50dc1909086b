/**
 * The retrieval engine (`RAGEngine`): an ordered list of action names, a vector index built
 * from the actions' descriptions, and the layered policy that resolves a prompt to one name.
 *
 * The sentence encoder and the FAISS `IndexFlatL2` search are not modelled numerically. The
 * index is represented by the descriptions whose embeddings were added to it, in insertion
 * order (the encoder is deterministic, so the vectors are a function of these), and the
 * search is a `Searcher`: any function from the stored descriptions and a query to the label
 * FAISS reports for the nearest neighbour.
 */
module RagEngine {
  import opened Wrappers
  import opened Text
  import opened Metadata

  /** A FAISS neighbour label: a position in the index, or -1 when there is no neighbour. */
  type Label = i: int | -1 <= i

  /** Encoding plus 1-nearest-neighbour search over the stored descriptions. */
  type Searcher = (seq<string>, string) -> Label

  /** An entry of the conversation history, `{"prompt": ...}`. */
  datatype ChatEntry = ChatEntry(prompt: string)

  /** The registry's description of each name, in the order of `names`. */
  function Descriptions(registry: Registry, names: seq<string>): (ds: seq<string>)
    requires forall f :: f in names ==> f in registry.entries
  {
    seq(|names|, i requires 0 <= i < |names| => registry.entries[names[i]].description)
  }

  /** The keyword test: the name with underscores as spaces, or the raw name, occurs in `text`. */
  predicate Matches(f: string, text: string)
  {
    Contains(text, Spaced(f)) || Contains(text, f)
  }

  /** The first name of `names`, in list order, that matches `text`. */
  function FirstMatch(names: seq<string>, text: string): (r: Option<string>)
    ensures r.None? <==> forall j :: 0 <= j < |names| ==> !Matches(names[j], text)
    ensures r.Some? ==> exists k :: 0 <= k < |names| && names[k] == r.value && Matches(names[k], text) &&
                                    forall j :: 0 <= j < k ==> !Matches(names[j], text)
  {
    if names == [] then None
    else if Matches(names[0], text) then Some(names[0])
    else
      var r := FirstMatch(names[1..], text);
      assert forall j :: 1 <= j < |names| ==> names[j] == names[1..][j - 1];
      r
  }

  /** First match wins: the earliest matching name is the result, whatever matches later. */
  lemma {:induction false} FirstMatchAt(names: seq<string>, text: string, k: nat)
    requires k < |names| && Matches(names[k], text)
    requires forall j :: 0 <= j < k ==> !Matches(names[j], text)
    ensures FirstMatch(names, text) == Some(names[k])
  {
    if k > 0 {
      assert !Matches(names[0], text);
      FirstMatchAt(names[1..], text, k - 1);
    }
  }

  /** Appending a name changes the scan only where nothing earlier matched. */
  lemma {:induction false} FirstMatchAppend(names: seq<string>, f: string, text: string)
    ensures FirstMatch(names + [f], text) ==
            if FirstMatch(names, text).Some? then FirstMatch(names, text)
            else if Matches(f, text) then Some(f) else None
  {
    if names != [] {
      assert (names + [f])[1..] == names[1..] + [f];
      FirstMatchAppend(names[1..], f, text);
    }
  }

  /** The anaphora test of maintain_context on the lower-cased query. */
  predicate HasMarker(queryLower: string)
  {
    Contains(queryLower, "it") || Contains(queryLower, "again")
  }

  /** The query followed by the previous prompt, marked as context in parentheses. */
  function CombinedQuery(currentQuery: string, context: string): string
  {
    currentQuery + " (context: " + context + ")"
  }

  class RAGEngine {
    const search: Searcher
    var functionNames: seq<string>
    var index: seq<string>

    /** The index holds one vector per name, for that name's description, in list order. */
    ghost predicate Synced(registry: Registry)
      reads this
      requires registry.Valid()
    {
      functionNames == registry.names && index == Descriptions(registry, functionNames)
    }

    constructor (registry: Registry, search: Searcher)
      requires registry.Valid()
      ensures this.search == search
      ensures Synced(registry)
    {
      this.search := search;
      index := [];
      functionNames := registry.names;
      new;
      BuildIndex(registry);
    }

    /** `_build_index`: re-embed the descriptions of the current names and re-sync the names. */
    method BuildIndex(registry: Registry)
      requires registry.Valid()
      requires forall f :: f in functionNames ==> f in registry.entries
      modifies this
      ensures registry.names == [] ==> functionNames == old(functionNames) && index == old(index)
      ensures registry.names != [] ==>
                index == Descriptions(registry, old(functionNames)) && functionNames == registry.names
      ensures old(functionNames) == registry.names && registry.names != [] ==> Synced(registry)
      ensures old(Synced(registry)) ==> Synced(registry) && index == old(index)
    {
      if registry.names == [] {
        return;
      }
      var descriptions := Descriptions(registry, functionNames);
      index := [];
      index := index + descriptions;
      functionNames := registry.names;
    }

    /** `retrieve_function`: the name at the nearest neighbour's label, with the source's guards. */
    function RetrieveFunction(query: string): (r: Option<string>)
      reads this
      ensures r.None? <==> functionNames == []
      ensures r.Some? ==> r.value in functionNames
      ensures functionNames != [] && search(index, query) >= |functionNames| ==> r == Some(functionNames[0])
      ensures 0 <= search(index, query) < |functionNames| ==> r == Some(functionNames[search(index, query)])
      ensures functionNames != [] && search(index, query) == -1 ==> r == Some(functionNames[|functionNames| - 1])
    {
      if functionNames == [] then None
      else
        var nearest := search(index, query);
        if nearest >= |functionNames| then Some(functionNames[0])
        else if nearest >= 0 then Some(functionNames[nearest])
        else Some(functionNames[|functionNames| + nearest])
    }

    /** The resolution `maintain_context` computes, stage by stage. */
    function Resolve(chatHistory: seq<ChatEntry>, currentQuery: string): (r: Option<string>)
      reads this
      ensures r.None? <==> functionNames == []
      ensures r.Some? ==> r.value in functionNames
    {
      if chatHistory == [] then RetrieveFunction(currentQuery)
      else
        var queryLower := Lower(currentQuery);
        match FirstMatch(functionNames, queryLower)
        case Some(f) => Some(f)
        case None =>
          if HasMarker(queryLower) then
            var combinedQuery := CombinedQuery(currentQuery, chatHistory[|chatHistory| - 1].prompt);
            match FirstMatch(functionNames, Lower(combinedQuery))
            case Some(f) => Some(f)
            case None => RetrieveFunction(combinedQuery)
          else RetrieveFunction(currentQuery)
    }

    /** One keyword loop over the names, in list order, returning at the first match. */
    method ScanNames(text: string) returns (r: Option<string>)
      ensures r == FirstMatch(functionNames, text)
    {
      for i := 0 to |functionNames|
        invariant forall j :: 0 <= j < i ==> !Matches(functionNames[j], text)
      {
        var func := functionNames[i];
        var funcName := Spaced(func);
        if Contains(text, funcName) || Contains(text, func) {
          FirstMatchAt(functionNames, text, i);
          return Some(func);
        }
      }
      return None;
    }

    /** `maintain_context` */
    method MaintainContext(chatHistory: seq<ChatEntry>, currentQuery: string) returns (r: Option<string>)
      ensures r == Resolve(chatHistory, currentQuery)
      ensures r.None? <==> functionNames == []
      ensures r.Some? ==> r.value in functionNames
    {
      if chatHistory == [] {
        return RetrieveFunction(currentQuery);
      }
      var queryLower := Lower(currentQuery);
      r := ScanNames(queryLower);
      if r.Some? {
        return;
      }
      var functionName := RetrieveFunction(currentQuery);
      if Contains(queryLower, "it") || Contains(queryLower, "again") {
        var combinedQuery := CombinedQuery(currentQuery, chatHistory[|chatHistory| - 1].prompt);
        var contextLower := Lower(combinedQuery);
        r := ScanNames(contextLower);
        if r.Some? {
          return;
        }
        return RetrieveFunction(combinedQuery);
      }
      return functionName;
    }
  }

  /** With an empty history the keyword stages never run: the result is the search on the raw query. */
  lemma EmptyHistoryUsesSearch(e: RAGEngine, currentQuery: string)
    ensures e.Resolve([], currentQuery) == e.RetrieveFunction(currentQuery)
  {
  }

  /** With a history, the first name in list order that matches the lower-cased query is the result. */
  lemma FirstKeywordMatchWins(e: RAGEngine, chatHistory: seq<ChatEntry>, currentQuery: string, k: nat)
    requires chatHistory != []
    requires k < |e.functionNames| && Matches(e.functionNames[k], Lower(currentQuery))
    requires forall j :: 0 <= j < k ==> !Matches(e.functionNames[j], Lower(currentQuery))
    ensures e.Resolve(chatHistory, currentQuery) == Some(e.functionNames[k])
  {
    FirstMatchAt(e.functionNames, Lower(currentQuery), k);
  }

  /** A query with a history that is exactly a lower-case action name spelled with spaces resolves to
      that action, unless an earlier name also occurs in it. */
  lemma SpacedNameResolves(e: RAGEngine, chatHistory: seq<ChatEntry>, k: nat)
    requires chatHistory != [] && k < |e.functionNames|
    requires Lower(Spaced(e.functionNames[k])) == Spaced(e.functionNames[k])
    requires forall j :: 0 <= j < k ==> !Matches(e.functionNames[j], Spaced(e.functionNames[k]))
    ensures e.Resolve(chatHistory, Spaced(e.functionNames[k])) == Some(e.functionNames[k])
  {
    var q := Spaced(e.functionNames[k]);
    Occurrence(q, q, 0);
    FirstKeywordMatchWins(e, chatHistory, q, k);
  }

  /** No direct keyword match and no anaphora marker: the provisional search result is final. */
  lemma NoMarkerKeepsSearchResult(e: RAGEngine, chatHistory: seq<ChatEntry>, currentQuery: string)
    requires chatHistory != []
    requires forall j :: 0 <= j < |e.functionNames| ==> !Matches(e.functionNames[j], Lower(currentQuery))
    requires !Contains(Lower(currentQuery), "it") && !Contains(Lower(currentQuery), "again")
    ensures e.Resolve(chatHistory, currentQuery) == e.RetrieveFunction(currentQuery)
  {
  }

  /** A keyword match on the context-augmented query overrides the search on the bare query. */
  lemma ContextKeywordOverrides(e: RAGEngine, chatHistory: seq<ChatEntry>, currentQuery: string, k: nat)
    requires chatHistory != []
    requires forall j :: 0 <= j < |e.functionNames| ==> !Matches(e.functionNames[j], Lower(currentQuery))
    requires HasMarker(Lower(currentQuery))
    requires var contextLower := Lower(currentQuery + " (context: " + chatHistory[|chatHistory| - 1].prompt + ")");
             k < |e.functionNames| && Matches(e.functionNames[k], contextLower) &&
             forall j :: 0 <= j < k ==> !Matches(e.functionNames[j], contextLower)
    ensures e.Resolve(chatHistory, currentQuery) == Some(e.functionNames[k])
  {
    FirstMatchAt(e.functionNames, Lower(CombinedQuery(currentQuery, chatHistory[|chatHistory| - 1].prompt)), k);
  }

  /** Without any keyword match, a marked query is answered by the search on the augmented query. */
  lemma ContextFallsBackToSearch(e: RAGEngine, chatHistory: seq<ChatEntry>, currentQuery: string)
    requires chatHistory != []
    requires forall j :: 0 <= j < |e.functionNames| ==> !Matches(e.functionNames[j], Lower(currentQuery))
    requires HasMarker(Lower(currentQuery))
    requires var combinedQuery := currentQuery + " (context: " + chatHistory[|chatHistory| - 1].prompt + ")";
             forall j :: 0 <= j < |e.functionNames| ==> !Matches(e.functionNames[j], Lower(combinedQuery))
    ensures e.Resolve(chatHistory, currentQuery) ==
            e.RetrieveFunction(currentQuery + " (context: " + chatHistory[|chatHistory| - 1].prompt + ")")
  {
  }

  /** Only the most recent history entry is consulted; whatever came before it is irrelevant. */
  lemma OnlyLastPromptConsulted(e: RAGEngine, h1: seq<ChatEntry>, h2: seq<ChatEntry>, currentQuery: string)
    requires h1 != [] && h2 != [] && h1[|h1| - 1] == h2[|h2| - 1]
    ensures e.Resolve(h1, currentQuery) == e.Resolve(h2, currentQuery)
  {
  }

  /** On a synced index, an in-range label names the action at that position, the one whose
      description was embedded there. */
  lemma RetrieveAligned(e: RAGEngine, registry: Registry, query: string)
    requires registry.Valid() && e.Synced(registry)
    requires 0 <= e.search(e.index, query) < |e.index|
    ensures e.RetrieveFunction(query) == Some(e.functionNames[e.search(e.index, query)])
    ensures registry.entries[e.RetrieveFunction(query).value].description == e.index[e.search(e.index, query)]
  {
  }

  /** Adding a name adds its description at the end; the index has one description per name. */
  lemma DescriptionsSnoc(registry: Registry, names: seq<string>, f: string)
    requires forall g :: g in names ==> g in registry.entries
    requires f in registry.entries
    ensures |Descriptions(registry, names)| == |names|
    ensures Descriptions(registry, names + [f]) ==
            Descriptions(registry, names) + [registry.entries[f].description]
  {
    assert forall g :: g in names + [f] ==> g in registry.entries;
  }

  /** The combined query holds the query at its start and the context after the marker text, and
      lower-casing it lower-cases the two parts. */
  lemma CombinedQueryParts(currentQuery: string, context: string)
    ensures OccursAt(CombinedQuery(currentQuery, context), currentQuery, 0)
    ensures OccursAt(CombinedQuery(currentQuery, context), context, |currentQuery| + 11)
    ensures Lower(CombinedQuery(currentQuery, context)) == CombinedQuery(Lower(currentQuery), Lower(context))
  {
    var q := CombinedQuery(currentQuery, context);
    assert q == currentQuery + (" (context: " + context + ")");
    assert q == (currentQuery + " (context: ") + (context + ")");
    OccursLeft(currentQuery, " (context: " + context + ")", currentQuery, 0);
    OccursLeft(context, ")", context, 0);
    OccursRight(currentQuery + " (context: ", context + ")", context, 0);
    LowerAppend(currentQuery, " (context: ");
    LowerAppend(currentQuery + " (context: ", context);
    LowerAppend(currentQuery + " (context: " + context, ")");
    assert Lower(" (context: ") == " (context: ";
    assert Lower(")") == ")";
  }

  /** Either spelling of a name in a text makes it match, its spaced spelling in particular. */
  lemma MatchesSpellings(f: string, text: string)
    ensures Contains(text, f) ==> Matches(f, text)
    ensures Contains(text, Spaced(f)) ==> Matches(f, text)
    ensures Matches(f, Spaced(f))
  {
    Occurrence(Spaced(f), Spaced(f), 0);
  }

  /** Neither spelling of `f` occurs in a text that lacks one of its letters (not the underscore,
      which spacing removes). */
  lemma NoMatch(f: string, text: string, c: char)
    requires c in f && c != '_' && Lacks(text, c)
    ensures !Matches(f, text)
  {
    var i :| 0 <= i < |f| && f[i] == c;
    assert Spaced(f)[i] == c;
    AbsentChar(text, Spaced(f), c);
    AbsentChar(text, f, c);
  }

  /** The marker test is on substrings, not words: more text on either side keeps a marker. */
  lemma HasMarkerExtends(a: string, b: string)
    ensures HasMarker(a) ==> HasMarker(a + b) && HasMarker(b + a)
  {
    ContainsConcat(a, b, "it");
    ContainsConcat(a, b, "again");
    ContainsConcat(b, a, "it");
    ContainsConcat(b, a, "again");
  }

  /** ... so "it" inside another word counts: "edit" carries a marker. */
  lemma MarkerInsideWord()
    ensures HasMarker("edit")
  {
    assert "edit"[2..4] == "it";
    Occurrence("edit", "it", 2);
  }
}
