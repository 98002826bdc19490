/**
 * The browser client's state rules: the bounded search history, the
 * empty-query guard of a search, the type filter and badge class of a
 * result card, the score and image display defaults, the sort toggle and
 * the wishlist membership toggle.
 *
 * Identifiers arrive from the API as JSON numbers (integer point ids) or
 * strings (UUID point ids); the wishlist button hands the toggle the id as
 * text.  Both forms are kept apart here as they are in a JavaScript `Set`.
 */
module Client {
  import opened Base
  import opened Text

  const HistoryLimit: nat := 50
  const TopK: nat := 12
  const DefaultScore: int := 85
  const MinImageLength: nat := 5

  const FilterAll: Str := "ALL"
  const SortRelevance: Str := "RELEVANCE"
  const SortRating: Str := "RATING"
  const DefaultType: Str := "MOVIE"
  const NoDescription: Str := "No data."
  const NullMarker: Str := "null"

  const RecommendEndpoint: Str := "/recommend"
  const PersonalizedEndpoint: Str := "/recommend/personalized"

  /** A JSON identifier as JavaScript holds it. */
  datatype JsId = JsNum(n: nat) | JsStr(s: Str)

  /** One search in the history: the query, the clock's time text and the
      millisecond timestamp used as its id. */
  datatype HistoryEntry = HistoryEntry(query: Str, timestamp: Str, id: int)

  /** A result card's fields as the API returns them; an absent or null
      field is `None`. */
  datatype Card = Card(id: JsId, title: Str, itemType: Option<Str>, score: Option<int>,
                       image: Option<Str>, description: Option<Str>)

  datatype SearchRequest = SearchRequest(endpoint: Str, text: Str, topK: nat, model: Str)

  datatype ImageSource = Placeholder(title: Str) | Proxied(url: Str)

  // ---------------------------------------------------------------------
  // Search history

  /** The history after `unshift` of a new entry and one `pop` when the
      list has grown past the limit. */
  function Pushed(history: seq<HistoryEntry>, e: HistoryEntry): seq<HistoryEntry>
  {
    var h := [e] + history;
    if |h| > HistoryLimit then h[..|h| - 1] else h
  }

  /** The new entry comes first, the older entries follow in their order
      with at most the last one dropped, a history within the limit stays
      within it, and nothing is dropped below the limit. */
  lemma PushedContract(history: seq<HistoryEntry>, e: HistoryEntry)
    ensures var r := Pushed(history, e);
      && |r| > 0 && r[0] == e
      && r[1..] == history[..|r| - 1]
      && (|history| <= HistoryLimit ==> |r| <= HistoryLimit)
      && (|history| < HistoryLimit ==> r[1..] == history)
      && |r| == if |history| < HistoryLimit then |history| + 1 else |history|
  {
  }

  /** After any number of searches the history holds the most recent
      queries, newest first, and never more than the limit. */
  lemma {:induction false} PushedAllBound(history: seq<HistoryEntry>, entries: seq<HistoryEntry>)
    requires |history| <= HistoryLimit
    ensures |PushedAll(history, entries)| <= HistoryLimit
    ensures |entries| > 0 ==> PushedAll(history, entries)[0] == entries[|entries| - 1]
  {
    if entries != [] {
      PushedAllBound(history, entries[..|entries| - 1]);
      PushedContract(PushedAll(history, entries[..|entries| - 1]), entries[|entries| - 1]);
    }
  }

  function PushedAll(history: seq<HistoryEntry>, entries: seq<HistoryEntry>): seq<HistoryEntry>
  {
    if entries == [] then history
    else Pushed(PushedAll(history, entries[..|entries| - 1]), entries[|entries| - 1])
  }

  // ---------------------------------------------------------------------
  // Sort and filter

  /** The sort toggle: RELEVANCE becomes RATING and anything else becomes
      RELEVANCE. */
  function ToggledSort(sort: Str): (r: Str)
    ensures r == SortRelevance || r == SortRating
    ensures r != sort || sort !in {SortRelevance, SortRating}
  {
    if sort == SortRelevance then SortRating else SortRelevance
  }

  /** Toggling twice gives back the starting mode exactly when it was one
      of the two modes. */
  lemma ToggledSortTwice(sort: Str)
    ensures ToggledSort(ToggledSort(sort)) == sort <==> sort in {SortRelevance, SortRating}
  {
    assert SortRelevance != SortRating by {
      assert SortRelevance[1] != SortRating[1];
    }
  }

  /** The card's type text before any default: `(item.type || "")`. */
  function TypeOr(t: Option<Str>, default: Str): (r: Str)
    ensures t.Some? && t.value != [] ==> r == t.value
    ensures (t.None? || t.value == []) ==> r == default
  {
    if t.Some? && t.value != [] then t.value else default
  }

  /** A card passes a filter other than ALL when its upper-cased type
      contains the filter token (the DOC case is the same test). */
  predicate Matches(c: Card, filter: Str)
  {
    var t := Upper(TypeOr(c.itemType, ""));
    if filter == "DOC" then Contains(t, "DOC") else Contains(t, filter)
  }

  function Keep(cards: seq<Card>, filter: Str): seq<Card>
  {
    if cards == [] then []
    else (if Matches(cards[0], filter) then [cards[0]] else []) + Keep(cards[1..], filter)
  }

  /** `Keep` draws the matching cards in their order, each matching card
      as often as it occurs, and no other card. */
  lemma KeepContract(cards: seq<Card>, filter: Str)
    ensures var r := Keep(cards, filter);
      && Subseq(r, cards)
      && (forall i :: 0 <= i < |r| ==> Matches(r[i], filter))
      && (forall c :: multiset(r)[c] == if Matches(c, filter) then multiset(cards)[c] else 0)
  {
    KeepOrder(cards, filter);
    KeepMatches(cards, filter);
    KeepCounts(cards, filter);
  }

  lemma {:induction false} KeepOrder(cards: seq<Card>, filter: Str)
    ensures Subseq(Keep(cards, filter), cards)
  {
    if cards != [] {
      KeepOrder(cards[1..], filter);
      var rest := Keep(cards[1..], filter);
      if Matches(cards[0], filter) {
        assert Keep(cards, filter) == [cards[0]] + rest;
        assert Keep(cards, filter)[1..] == rest;
      } else {
        assert Keep(cards, filter) == rest;
        SubseqSkip(rest, cards);
      }
    }
  }

  lemma {:induction false} KeepMatches(cards: seq<Card>, filter: Str)
    ensures forall i :: 0 <= i < |Keep(cards, filter)| ==> Matches(Keep(cards, filter)[i], filter)
  {
    if cards != [] {
      KeepMatches(cards[1..], filter);
    }
  }

  lemma {:induction false} KeepCounts(cards: seq<Card>, filter: Str)
    ensures forall c :: multiset(Keep(cards, filter))[c] == if Matches(c, filter) then multiset(cards)[c] else 0
  {
    if cards != [] {
      KeepCounts(cards[1..], filter);
      assert cards == [cards[0]] + cards[1..];
      assert multiset(cards) == multiset{cards[0]} + multiset(cards[1..]);
    }
  }

  /** The cards a result list shows under a filter. */
  function Visible(cards: seq<Card>, filter: Str): seq<Card>
  {
    if filter == FilterAll then cards else Keep(cards, filter)
  }

  /** Under ALL every card is shown; under another filter exactly the
      matching cards, in their order. */
  lemma VisibleContract(cards: seq<Card>, filter: Str)
    ensures filter == FilterAll ==> Visible(cards, filter) == cards
    ensures filter != FilterAll ==>
      && Subseq(Visible(cards, filter), cards)
      && (forall c :: c in Visible(cards, filter) <==> (c in cards && Matches(c, filter)))
  {
    if filter != FilterAll {
      KeepContract(cards, filter);
      var r := Keep(cards, filter);
      forall c
        ensures c in r <==> (c in cards && Matches(c, filter))
      {
        assert c in r <==> multiset(r)[c] > 0;
        assert c in cards <==> multiset(cards)[c] > 0;
      }
    }
  }

  // ---------------------------------------------------------------------
  // Card display

  /** The badge text: the upper-cased type, MOVIE when there is none. */
  function BadgeText(c: Card): (r: Str)
    ensures |r| > 0
  {
    Upper(TypeOr(c.itemType, DefaultType))
  }

  /** The badge class: movie, overridden by tv, then anime, then doc. */
  function BadgeClass(c: Card): Str
  {
    var t := BadgeText(c);
    var c1 := if Contains(t, "TV") then "tv" else "movie";
    var c2 := if Contains(t, "ANIME") then "anime" else c1;
    if Contains(t, "DOC") then "doc" else c2
  }

  /** A later test wins: DOC over ANIME over TV, and movie when none
      matches. */
  lemma BadgeClassContract(c: Card)
    ensures var t := BadgeText(c);
      && (BadgeClass(c) == "doc" <==> Contains(t, "DOC"))
      && (BadgeClass(c) == "anime" <==> !Contains(t, "DOC") && Contains(t, "ANIME"))
      && (BadgeClass(c) == "tv" <==> !Contains(t, "DOC") && !Contains(t, "ANIME") && Contains(t, "TV"))
      && (BadgeClass(c) == "movie" <==> !Contains(t, "DOC") && !Contains(t, "ANIME") && !Contains(t, "TV"))
  {
    assert "doc" != "anime" && "doc" != "tv" && "doc" != "movie";
    assert "anime" != "tv" && "anime" != "movie" && "tv" != "movie";
  }

  /** A card without a type is badged MOVIE but dropped by the MOVIE
      filter, because the filter reads the missing type as empty. */
  lemma UntypedCardUnderMovieFilter(c: Card)
    requires c.itemType.None?
    ensures BadgeText(c) == DefaultType && BadgeClass(c) == "movie"
    ensures !Matches(c, DefaultType) && Visible([c], DefaultType) == []
  {
    var t := BadgeText(c);
    assert Upper(DefaultType) == DefaultType;
    assert 'T' !in t && 'D' !in t && 'A' !in t;
    ContainsFirstChar(t, "TV");
    ContainsFirstChar(t, "DOC");
    ContainsFirstChar(t, "ANIME");
    assert Upper(TypeOr(c.itemType, "")) == [];
    assert !Contains([], DefaultType);
    assert Keep([c], DefaultType) == Keep([], DefaultType);
  }

  /** The score shown on a card: `item.score || 85`. */
  function DisplayScore(c: Card): (r: int)
    ensures r != 0
    ensures c.score.Some? && c.score.value != 0 ==> r == c.score.value
    ensures (c.score.None? || c.score.value == 0) ==> r == DefaultScore
  {
    if c.score.Some? && c.score.value != 0 then c.score.value else DefaultScore
  }

  /** The description shown on a card: `item.description || "No data."`. */
  function DisplayDescription(c: Card): (r: Str)
    ensures r != []
    ensures c.description.Some? && c.description.value != [] ==> r == c.description.value
  {
    TypeOr(c.description, NoDescription)
  }

  /** The card image: the image proxied only when it is longer than five
      characters and does not mention "null", otherwise the title
      placeholder. */
  function CardImage(c: Card): (r: ImageSource)
    ensures r.Proxied? <==>
      (c.image.Some? && |c.image.value| > MinImageLength && !Contains(c.image.value, NullMarker))
    ensures r.Proxied? ==> r.url == c.image.value
    ensures r.Placeholder? ==> r.title == c.title
  {
    if c.image.Some? && |c.image.value| > MinImageLength && !Contains(c.image.value, NullMarker)
    then Proxied(c.image.value)
    else Placeholder(c.title)
  }

  /** Any image containing "null" (a stored "None" or "nan" does not, a
      JSON "null" does) falls back to the placeholder, and so does any
      image of five characters or fewer. */
  lemma CardImageFallback(c: Card, pre: Str, post: Str)
    requires c.image == Some(pre + NullMarker + post) || (c.image.Some? && |c.image.value| <= MinImageLength)
    ensures CardImage(c) == Placeholder(c.title)
  {
    if c.image == Some(pre + NullMarker + post) {
      ContainsConcat(pre, NullMarker, post);
    }
  }

  lemma {:induction false} ContainsConcat(pre: Str, sub: Str, post: Str)
    ensures Contains(pre + sub + post, sub)
  {
    if pre == [] {
      assert (pre + sub + post)[..|sub|] == sub;
    } else {
      ContainsConcat(pre[1..], sub, post);
      assert (pre + sub + post)[1..] == pre[1..] + sub + post;
    }
  }

  // ---------------------------------------------------------------------
  // Wishlist membership

  /** The membership flip of the toggle: delete when present, add when
      absent. */
  function Flip<T(==)>(s: set<T>, id: T): set<T>
  {
    if id in s then s - {id} else s + {id}
  }

  /** The flip changes the membership of `id` and of nothing else, and a
      second flip restores the set. */
  lemma FlipContract<T>(s: set<T>, id: T)
    ensures id in Flip(s, id) <==> id !in s
    ensures forall x :: x != id ==> (x in Flip(s, id) <==> x in s)
    ensures Flip(Flip(s, id), id) == s
  {
  }

  /** The id text the wishlist button passes to the toggle: `'${item.id}'`. */
  function ButtonId(id: JsId): Str
  {
    match id
    case JsNum(n) => Decimal(n)
    case JsStr(s) => s
  }

  /** The set the client builds from the wishlist endpoint's items. */
  function LoadedIds(ids: seq<JsId>): (r: set<JsId>)
    ensures forall x :: x in r <==> x in ids
  {
    set i | i in ids
  }

  /** As written: a numeric id loaded at start-up is shown as saved, but
      the first press of its wishlist button looks up the text form,
      finds it absent and adds it, so the item stays saved. */
  lemma SavedNumericIdNotRemoved(n: nat)
    ensures var s := LoadedIds([JsNum(n)]);
      && JsNum(n) in s
      && JsStr(ButtonId(JsNum(n))) !in s
      && JsNum(n) in Flip(s, JsStr(ButtonId(JsNum(n))))
  {
  }

  /** Corrected: keying the set by the button's text form. */
  function LoadedKeys(ids: seq<JsId>): (r: set<Str>)
    ensures forall i :: 0 <= i < |ids| ==> ButtonId(ids[i]) in r
  {
    set i | i in ids :: ButtonId(i)
  }

  /** With text keys, the first press on any loaded item finds it saved,
      so the toggle removes it and leaves every other saved key alone. */
  lemma LoadedKeysToggleRemoves(ids: seq<JsId>, i: nat)
    requires i < |ids|
    ensures var s := LoadedKeys(ids);
      var key := ButtonId(ids[i]);
      && key in s
      && key !in Flip(s, key)
      && Flip(s, key) == s - {key}
      && (forall j :: 0 <= j < |ids| && ButtonId(ids[j]) != key ==> ButtonId(ids[j]) in Flip(s, key))
  {
  }

  // ---------------------------------------------------------------------
  // The client's mutable state

  class ClientState {
    var token: Option<Str>
    var model: Str
    var history: seq<HistoryEntry>
    var wishlist: set<JsId>
    var filter: Str
    var sort: Str

    /** The state at page load: the stored token and history, an empty
        wishlist, the internal model, filter ALL and sort RELEVANCE. */
    constructor(storedToken: Option<Str>, storedHistory: seq<HistoryEntry>)
      ensures token == storedToken && history == storedHistory
      ensures wishlist == {} && model == "internal"
      ensures filter == FilterAll && sort == SortRelevance
    {
      token := storedToken;
      model := "internal";
      history := storedHistory;
      wishlist := {};
      filter := FilterAll;
      sort := SortRelevance;
    }

    /** A token that is present and non-empty (JavaScript truthiness). */
    predicate LoggedIn()
      reads this
    {
      token.Some? && token.value != []
    }

    method AddToHistory(query: Str, timestamp: Str, now: int)
      modifies this
      ensures history == Pushed(old(history), HistoryEntry(query, timestamp, now))
      ensures token == old(token) && model == old(model) && wishlist == old(wishlist)
      ensures filter == old(filter) && sort == old(sort)
    {
      history := [HistoryEntry(query, timestamp, now)] + history;
      if |history| > HistoryLimit {
        history := history[..|history| - 1];
      }
    }

    /** A search: nothing happens for an empty query; otherwise the query
        is recorded and the request goes to the personalised endpoint when
        logged in. */
    method PerformSearch(query: Str, timestamp: Str, now: int) returns (request: Option<SearchRequest>)
      modifies this
      ensures query == [] ==> request.None? && history == old(history)
      ensures query != [] ==>
        && history == Pushed(old(history), HistoryEntry(query, timestamp, now))
        && request == Some(SearchRequest(
             if old(LoggedIn()) then PersonalizedEndpoint else RecommendEndpoint, query, TopK, model))
      ensures token == old(token) && model == old(model) && wishlist == old(wishlist)
      ensures filter == old(filter) && sort == old(sort)
    {
      if query == [] {
        return None;
      }
      AddToHistory(query, timestamp, now);
      var endpoint := if LoggedIn() then PersonalizedEndpoint else RecommendEndpoint;
      request := Some(SearchRequest(endpoint, query, TopK, model));
    }

    method SetFilter(t: Str)
      modifies this
      ensures filter == t
      ensures token == old(token) && model == old(model) && history == old(history)
      ensures wishlist == old(wishlist) && sort == old(sort)
    {
      filter := t;
    }

    method ToggleSort()
      modifies this
      ensures sort == ToggledSort(old(sort))
      ensures token == old(token) && model == old(model) && history == old(history)
      ensures wishlist == old(wishlist) && filter == old(filter)
    {
      sort := if sort == SortRelevance then SortRating else SortRelevance;
    }

    /** The wishlist button.  Logged out, it opens the sign-in dialog and
        changes nothing.  Logged in, it flips the id's membership once the
        request has been answered, whatever the answer; a request that
        fails to reach the server leaves the set as it was. */
    method ToggleWishlist(id: Str, requestFailed: bool) returns (openedAuth: bool)
      modifies this
      ensures openedAuth <==> !old(LoggedIn())
      ensures wishlist == if old(LoggedIn()) && !requestFailed then Flip(old(wishlist), JsStr(id))
                          else old(wishlist)
      ensures token == old(token) && model == old(model) && history == old(history)
      ensures filter == old(filter) && sort == old(sort)
    {
      if !LoggedIn() {
        return true;
      }
      openedAuth := false;
      if requestFailed {
        return;
      }
      if JsStr(id) in wishlist {
        wishlist := wishlist - {JsStr(id)};
      } else {
        wishlist := wishlist + {JsStr(id)};
      }
    }

    /** Start-up: when logged in and the wishlist endpoint answers, the
        set becomes the ids of the returned items. */
    method LoadWishlist(ok: bool, ids: seq<JsId>)
      modifies this
      ensures wishlist == if LoggedIn() && ok then LoadedIds(ids) else old(wishlist)
      ensures token == old(token) && model == old(model) && history == old(history)
      ensures filter == old(filter) && sort == old(sort)
    {
      if LoggedIn() && ok {
        wishlist := set i | i in ids;
      }
    }
  }
}
