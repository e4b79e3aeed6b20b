/**
 * The decision rules of the top bar, src/components/layout/header.tsx: the
 * lead search (its Turkish-aware normaliser, the two-character threshold,
 * the five-result cap), the search box's keyboard handler, what a click on
 * a notification does, the unread badge and the user's initials.
 *
 * Router navigation is returned as the target path. The lead list is the
 * cached result of the leads query, passed in.
 */
module Header {
  import opened Common
  import opened Text
  import Notifications

  /** The fields of a lead the search looks at (`lead.lead_profile?.…`); a lead without a profile has none of them. */
  datatype Lead = Lead(id: string, name: Option<string>, phone: Option<string>, email: Option<string>)

  const MinQueryLength: nat := 2
  const MaxResults: nat := 5
  const LeadLinkPrefix: string := "/leads?selected="
  const PhotosPath: string := "/photos"

  // ---------------------------------------------------------------------------
  // normalizeForSearch

  /** The six `replace` calls that fold Turkish letters onto their ASCII base letters. */
  function TurkishChar(c: char): (r: string)
    ensures |r| == 1
  {
    if c == 'ğ' then "g"
    else if c == 'ü' then "u"
    else if c == 'ş' then "s"
    else if c == 'ı' then "i"
    else if c == 'ö' then "o"
    else if c == 'ç' then "c"
    else [c]
  }

  /** The marks `/[̀-ͯ]/` removes: the Combining Diacritical Marks block. */
  predicate IsCombiningMark(c: char)
  {
    '\U{0300}' <= c <= '\U{036F}'
  }

  /**
   * `normalize("NFD")` of one character: a precomposed lower-case letter of
   * Latin-1 or Turkish splits into its base letter and a combining mark;
   * every other character is its own decomposition.
   */
  function Decompose(c: char): (r: string)
    ensures 1 <= |r| <= 2
  {
    if c == 'à' then "a\U{0300}" else if c == 'á' then "a\U{0301}"
    else if c == 'â' then "a\U{0302}" else if c == 'ã' then "a\U{0303}"
    else if c == 'ä' then "a\U{0308}" else if c == 'å' then "a\U{030A}"
    else if c == 'ç' then "c\U{0327}"
    else if c == 'è' then "e\U{0300}" else if c == 'é' then "e\U{0301}"
    else if c == 'ê' then "e\U{0302}" else if c == 'ë' then "e\U{0308}"
    else if c == 'ğ' then "g\U{0306}"
    else if c == 'ì' then "i\U{0300}" else if c == 'í' then "i\U{0301}"
    else if c == 'î' then "i\U{0302}" else if c == 'ï' then "i\U{0308}"
    else if c == 'ñ' then "n\U{0303}"
    else if c == 'ò' then "o\U{0300}" else if c == 'ó' then "o\U{0301}"
    else if c == 'ô' then "o\U{0302}" else if c == 'õ' then "o\U{0303}"
    else if c == 'ö' then "o\U{0308}"
    else if c == 'ş' then "s\U{0327}"
    else if c == 'ù' then "u\U{0300}" else if c == 'ú' then "u\U{0301}"
    else if c == 'û' then "u\U{0302}" else if c == 'ü' then "u\U{0308}"
    else if c == 'ý' then "y\U{0301}" else if c == 'ÿ' then "y\U{0308}"
    else [c]
  }

  /** The final `replace`: a combining mark is dropped, anything else kept. */
  function StripMark(c: char): (r: string)
    ensures IsCombiningMark(c) <==> r == ""
  {
    if IsCombiningMark(c) then "" else [c]
  }

  /** `normalizeForSearch`: lower-case, fold the Turkish letters, decompose, drop the marks. */
  function Normalize(s: string): string
  {
    MapChars(MapChars(MapChars(ToLower(s), TurkishChar), Decompose), StripMark)
  }

  /** A character the normaliser leaves as it is: no step changes it. */
  predicate Normal(c: char)
  {
    LowerChar(c) == [c] && TurkishChar(c) == [c] && Decompose(c) == [c] && !IsCombiningMark(c)
  }

  predicate Folded(c: char)
  {
    Lowered(c) && TurkishChar(c) == [c]
  }

  predicate Decomposed(c: char)
  {
    Folded(c) && Decompose(c) == [c]
  }

  /**
   * Every character of a normalised string is normal: no capital letter,
   * none of the six Turkish letters, no precomposed accented letter and no
   * combining mark is left.
   */
  lemma NormalizeIsNormal(s: string)
    ensures forall i :: 0 <= i < |Normalize(s)| ==> Normal(Normalize(s)[i])
  {
    var s1 := ToLower(s);
    LowerCharLowers();
    MapCharsCarries(s, LowerChar, c => true, Lowered);
    var s2 := MapChars(s1, TurkishChar);
    TurkishCharFolds();
    MapCharsCarries(s1, TurkishChar, Lowered, Folded);
    var s3 := MapChars(s2, Decompose);
    DecomposeSplits();
    MapCharsCarries(s2, Decompose, Folded, Decomposed);
    MapCharsCarries(s3, StripMark, Decomposed, Normal);
  }

  /** The Turkish folding keeps lower-case characters lower-case and leaves nothing to fold. */
  lemma TurkishCharFolds()
    ensures forall c, d :: Lowered(c) && d in TurkishChar(c) ==> Folded(d)
  {
  }

  /** Decomposing a folded character gives base letters and marks, which nothing before it changes. */
  lemma DecomposeSplits()
    ensures forall c, d :: Folded(c) && d in Decompose(c) ==> Decomposed(d)
  {
    forall c, d | Folded(c) && d in Decompose(c) ensures Decomposed(d) {
      if Decompose(c) != [c] {
        assert d == Decompose(c)[0] || d == Decompose(c)[1];
      }
    }
  }

  /** Normalising is idempotent: a normalised query or name normalises to itself. */
  lemma NormalizeIdempotent(s: string)
    ensures Normalize(Normalize(s)) == Normalize(s)
  {
    var n := Normalize(s);
    NormalizeIsNormal(s);
    MapCharsFixed(n, LowerChar);
    MapCharsFixed(n, TurkishChar);
    MapCharsFixed(n, Decompose);
    MapCharsFixed(n, StripMark);
  }

  /** The normaliser works character by character, so it distributes over concatenation. */
  lemma NormalizeAppend(s: string, t: string)
    ensures Normalize(s + t) == Normalize(s) + Normalize(t)
  {
    MapCharsAppend(s, t, LowerChar);
    var s1, t1 := ToLower(s), ToLower(t);
    MapCharsAppend(s1, t1, TurkishChar);
    var s2, t2 := MapChars(s1, TurkishChar), MapChars(t1, TurkishChar);
    MapCharsAppend(s2, t2, Decompose);
    MapCharsAppend(MapChars(s2, Decompose), MapChars(t2, Decompose), StripMark);
  }

  /** A letter whose lower case folds to a base letter normalises to that letter. */
  lemma NormalizeLetter(c: char, l: char, a: char)
    requires LowerChar(c) == [l] && TurkishChar(l) == [a] && Decompose(a) == [a] && !IsCombiningMark(a)
    ensures Normalize([c]) == [a]
  {
    assert [c][1..] == [] && [l][1..] == [] && [a][1..] == [];
    assert ToLower([c]) == LowerChar(c) + MapChars([], LowerChar);
    assert MapChars([l], TurkishChar) == TurkishChar(l) + MapChars([], TurkishChar);
    assert MapChars([a], Decompose) == Decompose(a) + MapChars([], Decompose);
    assert MapChars([a], StripMark) == StripMark(a) + MapChars([], StripMark);
  }

  /**
   * The Turkish letters in either case, and the dotless and dotted I, fold
   * onto the ASCII letters a search typed on any keyboard produces.
   */
  lemma TurkishLettersFold()
    ensures Normalize("ğ") == Normalize("Ğ") == "g"
    ensures Normalize("ş") == Normalize("Ş") == "s"
    ensures Normalize("ı") == Normalize("İ") == Normalize("I") == "i"
    ensures Normalize("ü") == Normalize("Ü") == "u"
    ensures Normalize("ö") == Normalize("Ö") == "o"
    ensures Normalize("ç") == Normalize("Ç") == "c"
  {
    FoldsToG();
    FoldsToS();
    FoldsToU();
    FoldsToO();
    FoldsToC();
    DotlessAndCapitalIFold();
    DottedCapitalIFolds();
  }

  /** `ğ` and `Ğ` normalise to `g`. */
  lemma FoldsToG()
    ensures Normalize("ğ") == "g" && Normalize("Ğ") == "g"
  {
    NormalizeLetter('ğ', 'ğ', 'g');
    NormalizeLetter('Ğ', 'ğ', 'g');
  }

  /** `ş` and `Ş` normalise to `s`. */
  lemma FoldsToS()
    ensures Normalize("ş") == "s" && Normalize("Ş") == "s"
  {
    NormalizeLetter('ş', 'ş', 's');
    NormalizeLetter('Ş', 'ş', 's');
  }

  /** `ü` and `Ü` normalise to `u`. */
  lemma FoldsToU()
    ensures Normalize("ü") == "u" && Normalize("Ü") == "u"
  {
    NormalizeLetter('ü', 'ü', 'u');
    NormalizeLetter('Ü', 'ü', 'u');
  }

  /** `ö` and `Ö` normalise to `o`. */
  lemma FoldsToO()
    ensures Normalize("ö") == "o" && Normalize("Ö") == "o"
  {
    NormalizeLetter('ö', 'ö', 'o');
    NormalizeLetter('Ö', 'ö', 'o');
  }

  /** `ç` and `Ç` normalise to `c`. */
  lemma FoldsToC()
    ensures Normalize("ç") == "c" && Normalize("Ç") == "c"
  {
    NormalizeLetter('ç', 'ç', 'c');
    NormalizeLetter('Ç', 'ç', 'c');
  }

  /** The dotless `ı` and the ASCII capital `I` normalise to `i`. */
  lemma DotlessAndCapitalIFold()
    ensures Normalize("ı") == "i" && Normalize("I") == "i"
  {
    NormalizeLetter('ı', 'ı', 'i');
    NormalizeLetter('I', 'i', 'i');
  }

  /** `İ` lower-cases to `i` and a combining dot above, and the dot is then dropped. */
  lemma DottedCapitalIFolds()
    ensures Normalize("İ") == "i"
  {
    var m: string := "\U{0307}";
    assert ['İ'][1..] == [] && "i"[1..] == [] && m[1..] == [];
    assert ToLower("İ") == "i" + m;
    MapCharsAppend("i", m, TurkishChar);
    MapCharsAppend("i", m, Decompose);
    assert MapChars("i" + m, Decompose) == "i" + m;
    MapCharsAppend("i", m, StripMark);
    assert MapChars(m, StripMark) == "";
  }

  // ---------------------------------------------------------------------------
  // searchResults

  /** The filter test for one lead against the normalised query: name after normalising, phone or email after lower-casing. */
  predicate Matches(lead: Lead, query: string)
  {
    || Contains(Normalize(OrEmpty(lead.name)), query)
    || Contains(ToLower(OrEmpty(lead.phone)), query)
    || Contains(ToLower(OrEmpty(lead.email)), query)
  }

  /** `searchResults`: nothing below two characters, otherwise the first five matching leads. */
  function SearchResults(leads: seq<Lead>, query: string): (r: seq<Lead>)
    ensures Utf16Length(query) < MinQueryLength ==> r == []
    ensures |r| <= MaxResults
    ensures forall l :: l in r ==> l in leads && Matches(l, Normalize(query))
    ensures Utf16Length(query) >= MinQueryLength ==>
      var hits := Filter(leads, l => Matches(l, Normalize(query)));
      r == hits[..Min(|hits|, MaxResults)]
  {
    if Utf16Length(query) >= MinQueryLength then
      var q := Normalize(query);
      var hits := Filter(leads, l => Matches(l, q));
      assert forall l :: l in hits ==> l in leads && Matches(l, q);
      Take(hits, MaxResults)
    else []
  }

  /** The results keep the order the leads came in. */
  lemma SearchResultsInOrder(leads: seq<Lead>, query: string)
    ensures Embeds(SearchResults(leads, query), leads)
  {
    if Utf16Length(query) >= MinQueryLength {
      var q := Normalize(query);
      var hits := Filter(leads, l => Matches(l, q));
      FilterEmbeds(leads, l => Matches(l, q));
      EmbedsPrefix(hits, leads, Min(|hits|, MaxResults));
    }
  }

  /** With five matches or fewer and a long enough query, every matching lead is shown. */
  lemma SearchResultsComplete(leads: seq<Lead>, query: string, lead: Lead)
    requires Utf16Length(query) >= MinQueryLength
    requires Count(leads, l => Matches(l, Normalize(query))) <= MaxResults
    requires lead in leads && Matches(lead, Normalize(query))
    ensures lead in SearchResults(leads, query)
  {
    var q := Normalize(query);
    FilterKeeps(leads, l => Matches(l, q), lead);
  }

  /**
   * A query of two or more characters that normalises to nothing (only
   * combining marks, say) matches every lead, since every string includes
   * the empty string: the first five leads are shown.
   */
  lemma SearchEmptyNormalFormShowsFirstFive(leads: seq<Lead>, query: string)
    requires Utf16Length(query) >= MinQueryLength && Normalize(query) == ""
    ensures SearchResults(leads, query) == Take(leads, MaxResults)
  {
    forall l | l in leads ensures Matches(l, "") {
      ContainsEmpty(Normalize(OrEmpty(l.name)));
    }
    FilterAll(leads, l => Matches(l, ""));
  }

  // ---------------------------------------------------------------------------
  // Notifications: click target and badge

  /** The page for one lead, as the template literal builds it (the id is not encoded). */
  function LeadLink(leadId: string): (r: string)
    ensures |r| == |LeadLinkPrefix| + |leadId|
    ensures r[..|LeadLinkPrefix|] == LeadLinkPrefix && r[|LeadLinkPrefix|..] == leadId
  {
    LeadLinkPrefix + leadId
  }

  /** Where `handleNotificationClick` sends the router: the lead if it has one, else the photo page for a photo, else nowhere. */
  function NotificationTarget(n: Notifications.Notification): (r: Option<string>)
    ensures Truthy(n.leadId) ==> r == Some(LeadLink(n.leadId.value))
    ensures !Truthy(n.leadId) && n.kind.NewPhoto? ==> r == Some(PhotosPath)
    ensures r.None? <==> !Truthy(n.leadId) && !n.kind.NewPhoto?
  {
    if Truthy(n.leadId) then Some(LeadLink(n.leadId.value))
    else if n.kind.NewPhoto? then Some(PhotosPath)
    else None
  }

  /**
   * A photo notification made by `createPhotoNotification` carries its
   * lead, so it opens the lead, never the photo page, unless the lead id is
   * the empty string.
   */
  lemma PhotoNotificationOpensLead(leadName: string, leadId: string, photoId: string, id: string, now: string)
    ensures var n := Notifications.Stamp(Notifications.PhotoDraft(leadName, leadId, photoId), id, now);
      NotificationTarget(n) == (if leadId != "" then Some(LeadLink(leadId)) else Some(PhotosPath))
  {
  }

  /** The unread badge: hidden at zero, the count up to nine, `9+` above. */
  function BadgeLabel(unread: nat): (r: Option<string>)
    ensures r.None? <==> unread == 0
    ensures unread > 9 ==> r == Some("9+")
    ensures r.Some? ==> |r.value| <= 2
  {
    if unread == 0 then None
    else if unread > 9 then Some("9+")
    else Some(NatToString(unread))
  }

  /** A badge showing a single digit reads back as the exact count; a badge always shows a positive number or `9+`. */
  lemma BadgeLabelReadsBack(unread: nat)
    requires 0 < unread <= 9
    ensures var r := BadgeLabel(unread);
      r.Some? && |r.value| == 1 && AllDigits(r.value) && DigitsValue(r.value) == unread
  {
    NatToStringRoundTrip(unread);
  }

  /** The badge of a store's list is shown exactly when something is unread. */
  lemma BadgeShownIffUnread(items: seq<Notifications.Notification>)
    ensures BadgeLabel(Notifications.UnreadCount(items)).Some? <==> exists i :: 0 <= i < |items| && !items[i].read
  {
    var c := Notifications.UnreadCount(items);
    if c > 0 {
      var f := Filter(items, Notifications.IsUnread);
      assert f[0] in f;
      var i :| 0 <= i < |items| && items[i] == f[0];
      assert !items[i].read;
    } else {
      forall i | 0 <= i < |items| ensures items[i].read {
        if !items[i].read {
          FilterKeeps(items, Notifications.IsUnread, items[i]);
        }
      }
    }
  }

  // ---------------------------------------------------------------------------
  // getUserInitials

  /** `n[0]` of one word, with the `undefined` of an empty word joined as nothing. */
  function FirstChar(w: string): (r: string)
    ensures |r| <= 1
  {
    if w == [] then "" else [w[0]]
  }

  /** `words.map((n) => n[0]).join("")`. */
  function Firsts(words: seq<string>): (r: string)
    ensures |r| <= |words|
    decreases |words|
  {
    if words == [] then "" else FirstChar(words[0]) + Firsts(words[1..])
  }

  /** `getUserInitials`: `??` without a name, else the upper-cased first letters of the words, at most two. */
  function UserInitials(name: Option<string>): (r: string)
    ensures !Truthy(name) ==> r == "??"
    ensures |r| <= 2
  {
    if !Truthy(name) then "??" else Take(ToUpper(Firsts(Split(name.value, ' '))), 2)
  }

  /**
   * For a name of two or more words, each starting with a letter that
   * upper-cases to one letter, the initials are the first two words'
   * capitals.
   */
  lemma InitialsOfWords(words: seq<string>)
    requires |words| >= 2
    requires forall i :: 0 <= i < |words| ==> words[i] != "" && Free(words[i], ' ')
    requires |UpperChar(words[0][0])| == 1 && |UpperChar(words[1][0])| == 1
    ensures UserInitials(Some(Join(words, ' '))) == UpperChar(words[0][0]) + UpperChar(words[1][0])
  {
    var name := Join(words, ' ');
    assert name != "" by {
      assert name == words[0] + [' '] + Join(words[1..], ' ');
    }
    SplitJoin(words, ' ');
    var rest := Firsts(words[2..]);
    assert Firsts(words) == [words[0][0]] + ([words[1][0]] + rest) by {
      assert words[1..][1..] == words[2..];
    }
    MapCharsAppend([words[0][0]], [words[1][0]] + rest, UpperChar);
    MapCharsAppend([words[1][0]], rest, UpperChar);
    assert ToUpper([words[0][0]]) == UpperChar(words[0][0]);
    assert ToUpper([words[1][0]]) == UpperChar(words[1][0]);
  }

  /** A one-word name gives the capital of its first letter. */
  lemma InitialsOfOneWord(w: string)
    requires w != "" && Free(w, ' ') && |UpperChar(w[0])| == 1
    ensures UserInitials(Some(w)) == UpperChar(w[0])
  {
    SplitJoin([w], ' ');
    assert Firsts([w]) == [w[0]];
    assert [w[0]][1..] == [];
    assert ToUpper([w[0]]) == UpperChar(w[0]) + ToUpper([]);
  }

  // ---------------------------------------------------------------------------
  // The component's state and handlers

  /** The header's own state: the search box, whether its results and the notification dropdown are open. */
  class HeaderState {
    const store: Notifications.NotificationStore
    var searchQuery: string
    var showSearchResults: bool
    var showNotifications: bool

    constructor(store: Notifications.NotificationStore)
      ensures this.store == store
      ensures searchQuery == "" && !showSearchResults && !showNotifications
    {
      this.store := store;
      searchQuery := "";
      showSearchResults := false;
      showNotifications := false;
    }

    /** The search box's `onChange`: the results open as soon as the query has two characters. */
    method ChangeQuery(value: string)
      modifies this`searchQuery, this`showSearchResults
      ensures searchQuery == value
      ensures showSearchResults <==> Utf16Length(value) >= MinQueryLength
    {
      searchQuery := value;
      showSearchResults := Utf16Length(value) >= MinQueryLength;
    }

    /** `handleSearchResultClick`: the box is cleared and closed, and the router goes to the lead. */
    method OpenResult(lead: Lead) returns (target: string)
      modifies this`searchQuery, this`showSearchResults
      ensures searchQuery == "" && !showSearchResults
      ensures target == LeadLink(lead.id)
    {
      searchQuery := "";
      showSearchResults := false;
      target := LeadLink(lead.id);
    }

    /**
     * `handleSearchKeyDown`: Enter opens the first result, and only when
     * there is one; Escape closes and clears the box; other keys do nothing.
     */
    method SearchKeyDown(key: string, leads: seq<Lead>) returns (target: Option<string>)
      modifies this`searchQuery, this`showSearchResults
      ensures var results := SearchResults(leads, old(searchQuery));
        target == (if key == "Enter" && results != [] then Some(LeadLink(results[0].id)) else None)
      ensures key == "Escape" || (key == "Enter" && SearchResults(leads, old(searchQuery)) != []) ==>
        searchQuery == "" && !showSearchResults
      ensures key != "Escape" && !(key == "Enter" && SearchResults(leads, old(searchQuery)) != []) ==>
        searchQuery == old(searchQuery) && showSearchResults == old(showSearchResults)
    {
      var results := SearchResults(leads, searchQuery);
      target := None;
      if key == "Enter" && |results| > 0 {
        var t := OpenResult(results[0]);
        target := Some(t);
      }
      if key == "Escape" {
        showSearchResults := false;
        searchQuery := "";
      }
    }

    /**
     * `handleNotificationClick`: the notification is marked read in the
     * store (which saves and notifies), the router is sent to its target if
     * it has one, and the dropdown closes in every case.
     */
    method NotificationClick(n: Notifications.Notification, writeOk: bool) returns (target: Option<string>)
      modifies this`showNotifications, store`items, store`storage, store`deliveries
      ensures store.items == Notifications.MarkRead(old(store.items), n.id)
      ensures store.storage == Notifications.Persist(store.hasWindow, writeOk, old(store.storage), store.items)
      ensures store.deliveries == old(store.deliveries) + multiset(store.listeners)
      ensures target == NotificationTarget(n)
      ensures !showNotifications
    {
      store.MarkAsRead(n.id, writeOk);
      target := NotificationTarget(n);
      showNotifications := false;
    }
  }
}
