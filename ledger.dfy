/**
 * The converter's application state (the global `state` object of
 * script.js): the current category, the conversion history (newest first,
 * at most ten entries kept), the favorites promoted from it, and the theme.
 * Record identifiers and dates, which the page takes from the clock, are
 * supplied by the caller; the confirmation dialog's answer is a parameter.
 */
module Ledger {
  import opened Wrappers
  import opened Units
  import opened Conversion

  /** One conversion as the history and favorites lists store it. */
  datatype ConversionRecord = ConversionRecord(
    id: int, date: string, value: real, from: string, result: real, to: string, category: Category)

  /** How many conversions the history keeps. */
  const HistoryLimit: nat := 10

  function Min(a: int, b: int): int {
    if a < b then a else b
  }

  // ---------------------------------------------------------------------------
  // History

  /**
   * The history after one conversion is recorded: the new record goes in
   * front (`unshift`) and, when that makes the list longer than the limit,
   * the oldest record is dropped (`pop`).
   */
  function PushHistory(history: seq<ConversionRecord>, rec: ConversionRecord): (h: seq<ConversionRecord>)
    ensures |h| > 0 && h[0] == rec
    ensures h[1..] == if |history| >= HistoryLimit then history[..|history| - 1] else history
    ensures |history| <= HistoryLimit ==> |h| == Min(|history| + 1, HistoryLimit)
  {
    var pushed := [rec] + history;
    if |pushed| > HistoryLimit then pushed[..|pushed| - 1] else pushed
  }

  /** A list in reverse order: the last record made comes first. */
  function Reversed(s: seq<ConversionRecord>): (r: seq<ConversionRecord>)
    ensures |r| == |s|
  {
    if s == [] then [] else [s[|s| - 1]] + Reversed(s[..|s| - 1])
  }

  /** The history after recording the conversions `recs`, oldest first. */
  function PushAll(history: seq<ConversionRecord>, recs: seq<ConversionRecord>): seq<ConversionRecord> {
    if recs == [] then history
    else PushHistory(PushAll(history, recs[..|recs| - 1]), recs[|recs| - 1])
  }

  /**
   * Starting from a history within the limit, any run of conversions leaves
   * exactly the most recent ones, newest first, up to the limit: the oldest
   * records are the ones evicted.
   */
  lemma {:induction false} HistoryKeepsMostRecent(history: seq<ConversionRecord>, recs: seq<ConversionRecord>)
    requires |history| <= HistoryLimit
    ensures PushAll(history, recs) == (Reversed(recs) + history)[..Min(|recs| + |history|, HistoryLimit)]
  {
    if recs == [] {
    } else {
      var front, x := recs[..|recs| - 1], recs[|recs| - 1];
      HistoryKeepsMostRecent(history, front);
      var before := PushAll(history, front);
      var all := Reversed(front) + history;
      assert Reversed(recs) + history == [x] + all;
      var m := Min(|front| + |history|, HistoryLimit);
      assert before == all[..m];
      if m < HistoryLimit {
        assert PushAll(history, recs) == [x] + before;
      } else {
        assert PushAll(history, recs) == [x] + before[..|before| - 1];
        assert ([x] + all)[..HistoryLimit] == [x] + all[..HistoryLimit - 1];
      }
    }
  }

  // ---------------------------------------------------------------------------
  // Favorites

  /** Some record of the list carries the identifier (`Array.prototype.some`). */
  predicate HasId(s: seq<ConversionRecord>, id: int) {
    exists i :: 0 <= i < |s| && s[i].id == id
  }

  /** No two records of the list share an identifier. */
  predicate UniqueIds(s: seq<ConversionRecord>) {
    forall i, j :: 0 <= i < j < |s| ==> s[i].id != s[j].id
  }

  /** `Array.prototype.find` by identifier: the first record carrying `id`. */
  function FindById(s: seq<ConversionRecord>, id: int): (r: Option<ConversionRecord>)
    ensures r.None? <==> !HasId(s, id)
    ensures r.Some? ==> exists k :: 0 <= k < |s| && s[k] == r.value && r.value.id == id
                          && forall i :: 0 <= i < k ==> s[i].id != id
  {
    if s == [] then None
    else if s[0].id == id then Some(s[0])
    else
      var r := FindById(s[1..], id);
      if r.Some? then
        var k :| 0 <= k < |s[1..]| && s[1..][k] == r.value && r.value.id == id
                   && forall i :: 0 <= i < k ==> s[1..][i].id != id;
        assert s[k + 1] == r.value;
        r
      else
        assert forall i :: 1 <= i < |s| ==> s[i] == s[1..][i - 1];
        r
  }

  /** How many records of the list carry the identifier. */
  function CountId(s: seq<ConversionRecord>, id: int): nat {
    if s == [] then 0 else (if s[0].id == id then 1 else 0) + CountId(s[1..], id)
  }

  /** A list without the identifier counts it zero times. */
  lemma {:induction false} CountIdAbsent(s: seq<ConversionRecord>, id: int)
    requires !HasId(s, id)
    ensures CountId(s, id) == 0
  {
    if s != [] {
      assert forall i :: 0 <= i < |s[1..]| ==> s[1..][i] == s[i + 1];
      CountIdAbsent(s[1..], id);
    }
  }

  /** The notice `addToFavorites` shows; none when the identifier is not in the history. */
  datatype FavoriteNotice = NoNotice | AddedToFavorites | AlreadyInFavorites

  datatype Promotion = Promotion(favorites: seq<ConversionRecord>, notice: FavoriteNotice)

  /**
   * Promoting the history record `id` to the favorites: nothing happens if no
   * history record has that identifier; the favorites are left alone if one
   * of them already has it; otherwise the history record goes in front.
   */
  function Promote(history: seq<ConversionRecord>, favorites: seq<ConversionRecord>, id: int): (p: Promotion)
    ensures !HasId(history, id) ==> p == Promotion(favorites, NoNotice)
    ensures HasId(history, id) && HasId(favorites, id) ==> p == Promotion(favorites, AlreadyInFavorites)
    ensures HasId(history, id) && !HasId(favorites, id) ==>
              && p.notice == AddedToFavorites
              && |p.favorites| == |favorites| + 1
              && p.favorites[0] == FindById(history, id).value
              && p.favorites[1..] == favorites
  {
    match FindById(history, id)
    case None => Promotion(favorites, NoNotice)
    case Some(item) =>
      if HasId(favorites, id) then Promotion(favorites, AlreadyInFavorites)
      else Promotion([item] + favorites, AddedToFavorites)
  }

  /**
   * Promoting the same record twice leaves exactly one favorite with its
   * identifier, and the second call only shows the "already there" notice.
   */
  lemma PromoteTwiceKeepsOne(history: seq<ConversionRecord>, favorites: seq<ConversionRecord>, id: int)
    requires HasId(history, id) && !HasId(favorites, id)
    ensures var once := Promote(history, favorites, id);
            var twice := Promote(history, once.favorites, id);
            && twice == Promotion(once.favorites, AlreadyInFavorites)
            && CountId(twice.favorites, id) == 1
  {
    var once := Promote(history, favorites, id);
    assert once.favorites[0].id == id;
    assert once.favorites[1..] == favorites;
    CountIdAbsent(favorites, id);
  }

  /** Promotion keeps the favorites free of duplicate identifiers. */
  lemma PromoteKeepsIdsDistinct(history: seq<ConversionRecord>, favorites: seq<ConversionRecord>, id: int)
    requires UniqueIds(favorites)
    ensures UniqueIds(Promote(history, favorites, id).favorites)
  {
  }

  /** Every favorite after a promotion was a favorite before or is a record of the history. */
  lemma PromoteDrawsFromHistory(history: seq<ConversionRecord>, favorites: seq<ConversionRecord>, id: int)
    ensures forall r :: r in Promote(history, favorites, id).favorites ==> r in favorites || r in history
  {
  }

  // ---------------------------------------------------------------------------
  // The application state

  /** What a conversion request showed and whether the notice was raised. */
  datatype Shown = Shown(value: real, noticeRaised: bool)

  class AppState {
    var currentCategory: Category
    var history: seq<ConversionRecord>
    var favorites: seq<ConversionRecord>
    var theme: string

    /** The history is within its limit; every operation keeps it so once it holds. */
    ghost predicate HistoryBounded()
      reads this
    {
      |history| <= HistoryLimit
    }

    /**
     * The state at page load: the length category, the stored history and
     * favorites (empty when nothing is stored), and the stored theme, or
     * "light" when none or an empty one is stored.
     */
    constructor (storedHistory: seq<ConversionRecord>, storedFavorites: seq<ConversionRecord>, storedTheme: Option<string>)
      ensures currentCategory == Length
      ensures history == storedHistory && favorites == storedFavorites
      ensures theme == if storedTheme.None? || storedTheme.value == "" then "light" else storedTheme.value
    {
      currentCategory := Length;
      history := storedHistory;
      favorites := storedFavorites;
      theme := if storedTheme.None? || storedTheme.value == "" then "light" else storedTheme.value;
    }

    /** Switches between the light and the dark theme; any other stored theme becomes light's opposite, "light". */
    method ToggleTheme()
      modifies this`theme
      ensures theme == if old(theme) == "light" then "dark" else "light"
      ensures old(theme) in {"light", "dark"} ==> theme != old(theme) && theme in {"light", "dark"}
    {
      theme := if theme == "light" then "dark" else "light";
    }

    /**
     * A category button: makes the category current and returns the two
     * units `loadUnits` preselects. The button also converts the value in
     * the form at once; that conversion is a following `Convert` call.
     */
    method SelectCategory(c: Category) returns (selection: Option<(string, string)>)
      modifies this`currentCategory
      ensures currentCategory == c
      ensures selection == DefaultSelection(c)
      ensures selection.Some? && selection.value.0 != selection.value.1
    {
      currentCategory := c;
      selection := DefaultSelection(c);
      DefaultSelectionDistinct(c);
    }

    /** Records one conversion of the current category at the front of the history, evicting the oldest beyond the limit. */
    method AddToHistory(value: real, from: string, result: real, to: string, id: int, date: string)
      modifies this`history
      ensures history == PushHistory(old(history), ConversionRecord(id, date, value, from, result, to, currentCategory))
      ensures history[0].id == id && history[0].result == result
      ensures old(HistoryBounded()) ==> HistoryBounded() && |history| == Min(|old(history)| + 1, HistoryLimit)
    {
      var conversion := ConversionRecord(id, date, value, from, result, to, currentCategory);
      history := [conversion] + history;
      if |history| > HistoryLimit {
        history := history[..|history| - 1];
      }
    }

    /**
     * The conversion the page runs on every input change: temperature and
     * the linear categories are converted and recorded; currency goes through
     * the rate table and is recorded unless both currencies are the same.
     */
    method Convert(value: real, from: string, to: string, id: int, date: string) returns (shown: Shown)
      modifies this`history
      ensures currentCategory == Temperature ==>
                shown == Shown(ConvertTemperature(value, from, to), false)
      ensures IsLinear(currentCategory) ==>
                shown == Shown(ConvertStandard(UnitsOf(currentCategory), value, from, to), false)
      ensures currentCategory == Currency && from == to ==>
                shown == Shown(value, false) && history == old(history)
      ensures currentCategory == Currency && from != to ==>
                var r := ConvertCurrency(value, from, to);
                shown == Shown(r.result, r.noticeRaised)
      ensures !(currentCategory == Currency && from == to) ==>
                history == PushHistory(old(history), ConversionRecord(id, date, value, from, shown.value, to, currentCategory))
    {
      if currentCategory == Temperature {
        var result := ConvertTemperature(value, from, to);
        shown := Shown(result, false);
      } else if currentCategory == Currency {
        var outcome := ConvertCurrency(value, from, to);
        if outcome.SameCurrency? {
          shown := Shown(value, false);
          return;
        }
        shown := Shown(outcome.result, outcome.noticeRaised);
      } else {
        var result := ConvertStandard(UnitsOf(currentCategory), value, from, to);
        shown := Shown(result, false);
      }
      AddToHistory(value, from, shown.value, to, id, date);
    }

    /** The star button of a history entry: promotes that record to the favorites; the history is untouched. */
    method AddToFavorites(id: int) returns (notice: FavoriteNotice)
      modifies this`favorites
      ensures Promotion(favorites, notice) == Promote(history, old(favorites), id)
      ensures !HasId(history, id) ==> favorites == old(favorites) && notice == NoNotice
      ensures HasId(old(favorites), id) ==> favorites == old(favorites)
      ensures old(UniqueIds(favorites)) ==> UniqueIds(favorites)
    {
      var item := FindById(history, id);
      if item.None? {
        notice := NoNotice;
        return;
      }
      if !HasId(favorites, id) {
        favorites := [item.value] + favorites;
        notice := AddedToFavorites;
      } else {
        notice := AlreadyInFavorites;
      }
      if old(UniqueIds(favorites)) {
        PromoteKeepsIdsDistinct(history, old(favorites), id);
      }
    }

    /**
     * The lookup of the "use" button of a favorite: the first favorite
     * carrying the identifier, or None, in which case nothing is replayed.
     */
    method UseFavorite(id: int) returns (item: Option<ConversionRecord>)
      ensures item == FindById(favorites, id)
      ensures item.Some? ==> item.value in favorites && item.value.id == id
      ensures item.None? ==> forall i :: 0 <= i < |favorites| ==> favorites[i].id != id
    {
      var i := 0;
      while i < |favorites|
        invariant 0 <= i <= |favorites|
        invariant FindById(favorites, id) == FindById(favorites[i..], id)
      {
        if favorites[i].id == id {
          return Some(favorites[i]);
        }
        assert favorites[i..][1..] == favorites[i + 1..];
        i := i + 1;
      }
      return None;
    }

    /** Empties the history when the user confirms; the favorites are kept. */
    method ClearHistory(confirmed: bool)
      modifies this`history
      ensures history == if confirmed then [] else old(history)
      ensures confirmed ==> HistoryBounded()
    {
      if confirmed {
        history := [];
      }
    }
  }
}
