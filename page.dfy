/**
 * The stateful page behaviour of the landing page script: the stored colour
 * theme and its toggle, the rotating testimonials, the sticky header, the
 * search box threshold and the modal dialogs.
 */
module Page {
  import opened Optional
  import opened JsString

  datatype Theme = Light | Dark

  /** The value stored under the `theme` key for a theme. */
  function ThemeName(t: Theme): string {
    match t
    case Light => "light"
    case Dark => "dark"
  }

  /**
   * The theme a page load starts with: `localStorage.getItem('theme') || 'light'`,
   * dark exactly when the stored value is `dark`; a missing or empty value, or
   * any other value, gives light.
   */
  function StartTheme(stored: Option<string>): (t: Theme)
    ensures t == Dark <==> stored == Some("dark")
  {
    var current := if stored.None? || stored.value == "" then "light" else stored.value;
    if current == "dark" then Dark else Light
  }

  /** What a page load starts with after a theme was stored: that same theme. */
  lemma StoredThemeSurvivesReload(t: Theme)
    ensures StartTheme(Some(ThemeName(t))) == t
  {
  }

  /** The body's `dark-theme` class, the toggle's `active` class and the stored preference. */
  class ThemeSwitch {
    var darkTheme: bool
    var toggleActive: bool
    var stored: Option<string>
    /** Whether the page has a `.theme-toggle` button at all. */
    const hasToggle: bool

    /** The toggle shows the theme the body has. */
    ghost predicate Valid()
      reads this
    {
      hasToggle ==> toggleActive == darkTheme
    }

    /** `initThemeToggle`: both classes are set from the stored preference. */
    constructor (saved: Option<string>, toggle: bool)
      ensures Valid()
      ensures darkTheme == (StartTheme(saved) == Dark) && stored == saved && hasToggle == toggle
      ensures !toggle ==> !toggleActive
    {
      var dark := StartTheme(saved) == Dark;
      darkTheme := dark;
      toggleActive := toggle && dark;
      stored := saved;
      hasToggle := toggle;
    }

    /** A click on the toggle flips the theme, the button with it, and stores the new theme. */
    method Click()
      requires hasToggle && Valid()
      modifies this
      ensures Valid()
      ensures darkTheme == !old(darkTheme)
      ensures stored == Some(ThemeName(if darkTheme then Dark else Light))
      ensures StartTheme(stored) == (if darkTheme then Dark else Light)
    {
      var isDark := darkTheme;
      if isDark {
        darkTheme := false;
        stored := Some("light");
        toggleActive := false;
      } else {
        darkTheme := true;
        stored := Some("dark");
        toggleActive := true;
      }
    }
  }

  /** Two clicks give back the theme and the toggle state, and store the theme the page had. */
  method ClickTwice(sw: ThemeSwitch)
    requires sw.hasToggle && sw.Valid()
    modifies sw
    ensures sw.Valid()
    ensures sw.darkTheme == old(sw.darkTheme) && sw.toggleActive == old(sw.toggleActive)
    ensures StartTheme(sw.stored) == (if old(sw.darkTheme) then Dark else Light)
  {
    sw.Click();
    sw.Click();
  }

  /** The index the carousel shows after `k` ticks from index `i` among `n` cards. */
  function Rotate(i: nat, n: nat, k: nat): (j: nat)
    requires n > 0
    ensures k > 0 || i < n ==> j < n
    decreases k
  {
    if k == 0 then i else Rotate((i + 1) % n, n, k - 1)
  }

  lemma MultipleBound(d: int, n: nat)
    requires n > 0
    ensures d >= 1 ==> d * n >= n
    ensures d <= -1 ==> d * n <= -(n as int)
  {
  }

  /** A remainder is determined by any quotient-remainder decomposition. */
  lemma ModUnique(x: nat, n: nat, q: nat, r: nat)
    requires n > 0 && r < n && x == q * n + r
    ensures x % n == r
  {
    var q', r' := x / n, x % n;
    assert x == q' * n + r';
    assert (q - q') * n == r' - r;
    MultipleBound(q - q', n);
  }

  /** Adding one full round of `n` does not change the position on the cycle. */
  lemma ModPlusPeriod(x: nat, n: nat)
    requires n > 0
    ensures (x + n) % n == x % n
  {
    var q := x / n;
    assert x == q * n + x % n;
    assert x + n == (q + 1) * n + x % n;
    ModUnique(x + n, n, q + 1, x % n);
  }

  /** After `k` ticks from index `i` the carousel shows card `(i + k) mod n`: it cycles through every card in turn. */
  lemma {:induction false} RotateIsModular(i: nat, n: nat, k: nat)
    requires n > 0 && i < n
    ensures Rotate(i, n, k) == (i + k) % n
    decreases k
  {
    if k == 0 {
      ModUnique(i, n, 0, i);
    } else if i + 1 < n {
      ModUnique(i + 1, n, 0, i + 1);
      RotateIsModular(i + 1, n, k - 1);
    } else {
      ModUnique(i + 1, n, 1, 0);
      RotateIsModular(0, n, k - 1);
      ModPlusPeriod(k - 1, n);
      assert i + k == k - 1 + n;
    }
  }

  /** Every `n` ticks the carousel is back at the card it started from. */
  lemma RotationPeriod(n: nat, k: nat)
    requires n > 0
    ensures Rotate(0, n, k + n) == Rotate(0, n, k)
  {
    RotateIsModular(0, n, k + n);
    RotateIsModular(0, n, k);
    ModPlusPeriod(k, n);
  }

  /** The testimonial cards, each with its `active` class, and the index of the current one. */
  class Carousel {
    const cards: array<bool>
    var currentIndex: nat

    ghost predicate Valid()
      reads this
    {
      cards.Length == 0 ==> currentIndex == 0
    }

    /** Only the current card may carry `active`. */
    ghost predicate OnlyCurrentActive()
      reads this, cards
    {
      forall j :: 0 <= j < cards.Length && cards[j] ==> j == currentIndex
    }

    constructor (active: seq<bool>)
      ensures Valid() && fresh(cards) && cards[..] == active && currentIndex == 0
    {
      cards := new bool[|active|](i requires 0 <= i < |active| => active[i]);
      currentIndex := 0;
    }

    /**
     * One tick of the five-second interval. With no cards the first step
     * already fails (the card at index 0 does not exist) and nothing changes;
     * otherwise the current card loses `active`, the index moves on by one
     * modulo the number of cards, and the new current card gains `active`.
     */
    method Tick() returns (threw: bool)
      requires Valid() && (cards.Length > 0 ==> currentIndex < cards.Length)
      modifies this, cards
      ensures Valid() && (cards.Length > 0 ==> currentIndex < cards.Length)
      ensures threw <==> cards.Length == 0
      ensures threw ==> currentIndex == old(currentIndex)
      ensures !threw ==> currentIndex == (old(currentIndex) + 1) % cards.Length
      ensures !threw ==> cards[..] == old(cards[..])[old(currentIndex) := false][currentIndex := true]
      ensures old(OnlyCurrentActive()) ==> OnlyCurrentActive()
      ensures !threw ==> cards[currentIndex]
    {
      if cards.Length == 0 {
        return true;
      }
      cards[currentIndex] := false;
      currentIndex := (currentIndex + 1) % cards.Length;
      cards[currentIndex] := true;
      threw := false;
    }
  }

  /**
   * The header's `scrolled` class. `present` says whether the page has a
   * `.header` element at all; the scroll listener is added either way.
   */
  class StickyHeader {
    const present: bool
    var scrolled: bool

    /** The header as the markup gives it, before any scroll event. */
    constructor (headerPresent: bool, scrolledAtLoad: bool)
      ensures present == headerPresent && scrolled == scrolledAtLoad
    {
      present := headerPresent;
      scrolled := scrolledAtLoad;
    }

    /**
     * A scroll event: the header is sticky exactly when the page is scrolled
     * more than 100 pixels down. Without a header, `header.classList` throws
     * on every scroll and nothing changes.
     */
    method OnScroll(scrollY: int) returns (threw: bool)
      modifies this
      ensures threw <==> !present
      ensures threw ==> scrolled == old(scrolled)
      ensures !threw ==> (scrolled <==> scrollY > 100)
    {
      if !present {
        return true;
      }
      threw := false;
      if scrollY > 100 {
        scrolled := true;
      } else {
        scrolled := false;
      }
    }
  }

  /** The shortest query the search box acts on. */
  const MinQueryLength := 2
  const NoResultsHtml := "<p>No results found</p>"

  /** `searchContent`: the page has no search index, so every query finds nothing. */
  function SearchContent(query: string): seq<string> {
    []
  }

  /** The markup `displaySearchResults` writes for a non-empty result list. */
  function ResultItems(results: seq<string>): string {
    if results == [] then "" else "<div class=\"search-result-item\">" + results[0] + "</div>" + ResultItems(results[1..])
  }

  /**
   * The `this` the input callback runs with: the search box, whose `value`
   * is the text typed, or no receiver at all, whose `value` is `undefined`.
   */
  datatype Receiver = SearchBox(value: string) | NoReceiver

  /** The results panel: whether it is displayed, its markup, and the queries searched for. */
  class SearchPanel {
    var displayed: bool
    var html: string
    var searched: seq<string>

    constructor (shown: bool, markup: string)
      ensures displayed == shown && html == markup && searched == []
    {
      displayed := shown;
      html := markup;
      searched := [];
    }

    /**
     * The input callback. Without a receiver, `this.value.toLowerCase()`
     * throws before anything changes. Otherwise the query is the lower-cased
     * value: one shorter than two characters hides the panel and searches
     * nothing, and any other is searched and its results shown.
     */
    method Callback(self: Receiver) returns (threw: bool)
      modifies this
      ensures threw <==> self.NoReceiver?
      ensures threw ==> displayed == old(displayed) && html == old(html) && searched == old(searched)
      ensures self.SearchBox? && |self.value| < MinQueryLength ==>
                !displayed && html == old(html) && searched == old(searched)
      ensures self.SearchBox? && |self.value| >= MinQueryLength ==>
                displayed && html == NoResultsHtml && searched == old(searched) + [ToLowerCase(self.value)]
    {
      if self.NoReceiver? {
        return true;
      }
      threw := false;
      var query := ToLowerCase(self.value);
      if |query| < MinQueryLength {
        displayed := false;
        return;
      }
      searched := searched + [query];
      var results := SearchContent(query);
      DisplayResults(results);
    }

    /**
     * An input event as the page wires it. `utils.debounce` later calls the
     * callback as `func(...args)`, with no receiver, so every call throws and
     * the panel is never hidden or shown, whatever was typed.
     */
    method OnInput(value: string) returns (threw: bool)
      modifies this
      ensures threw
      ensures displayed == old(displayed) && html == old(html) && searched == old(searched)
    {
      threw := Callback(NoReceiver);
    }

    /**
     * An input event with the callback run on the search box, as the
     * threshold was evidently meant to work: a value shorter than two
     * characters hides the panel, and any other is searched lower-cased.
     */
    method OnInputBound(value: string) returns (threw: bool)
      modifies this
      ensures !threw
      ensures |value| < MinQueryLength ==> !displayed && html == old(html) && searched == old(searched)
      ensures |value| >= MinQueryLength ==>
                displayed && html == NoResultsHtml && searched == old(searched) + [ToLowerCase(value)]
    {
      threw := Callback(SearchBox(value));
    }

    /** `displaySearchResults`: a "no results" note for an empty list, one item per result otherwise. */
    method DisplayResults(results: seq<string>)
      modifies this
      ensures displayed && searched == old(searched)
      ensures html == if results == [] then NoResultsHtml else ResultItems(results)
    {
      if |results| == 0 {
        html := NoResultsHtml;
      } else {
        html := ResultItems(results);
      }
      displayed := true;
    }
  }

  /**
   * What `document.getElementById` finds for a trigger's `data-modal` id:
   * nothing, one of the page's `.modal` elements (by its index among them),
   * or some other element with that id.
   */
  datatype Found = NoElement | ModalElement(index: nat) | OtherElement(id: string)

  /**
   * The `.modal` elements, each with its `show` class, the body's
   * `modal-open` class, and the ids of other elements that carry `show`.
   */
  class Modals {
    const shown: array<bool>
    var bodyModalOpen: bool
    var othersShown: set<string>

    /** The page as the markup gives it: `initModals` only looks the elements up. */
    constructor (initialShown: seq<bool>, initialBodyOpen: bool, initialOthers: set<string>)
      ensures fresh(shown) && shown[..] == initialShown
      ensures bodyModalOpen == initialBodyOpen && othersShown == initialOthers
    {
      shown := new bool[|initialShown|](i requires 0 <= i < |initialShown| => initialShown[i]);
      bodyModalOpen := initialBodyOpen;
      othersShown := initialOthers;
    }

    /**
     * A click on a `[data-modal]` trigger: whatever element the id names
     * gets `show`, a `.modal` or not, and the body is locked. An id naming
     * no element (an index past the page's modals names none) changes nothing.
     */
    method Open(found: Found)
      modifies shown, this
      ensures found.ModalElement? && found.index < shown.Length ==>
                shown[..] == old(shown[..])[found.index := true] && bodyModalOpen && othersShown == old(othersShown)
      ensures found.OtherElement? ==>
                shown[..] == old(shown[..]) && bodyModalOpen && othersShown == old(othersShown) + {found.id}
      ensures found.NoElement? || (found.ModalElement? && found.index >= shown.Length) ==>
                shown[..] == old(shown[..]) && bodyModalOpen == old(bodyModalOpen) && othersShown == old(othersShown)
    {
      match found
      case NoElement =>
      case ModalElement(i) =>
        if i < shown.Length {
          shown[i] := true;
          bodyModalOpen := true;
        }
      case OtherElement(id) =>
        othersShown := othersShown + {id};
        bodyModalOpen := true;
    }

    /**
     * A click on a close button or backdrop: the modal around it, if any, is
     * hidden and the body unlocked, even when another modal is still shown.
     */
    method Close(enclosing: Option<nat>)
      modifies shown, this
      ensures enclosing.Some? && enclosing.value < shown.Length ==>
                shown[..] == old(shown[..])[enclosing.value := false] && !bodyModalOpen
      ensures !(enclosing.Some? && enclosing.value < shown.Length) ==>
                shown[..] == old(shown[..]) && bodyModalOpen == old(bodyModalOpen)
      ensures othersShown == old(othersShown)
    {
      if enclosing.Some? && enclosing.value < shown.Length {
        shown[enclosing.value] := false;
        bodyModalOpen := false;
      }
    }

    /**
     * A key press: Escape hides every modal and unlocks the body, the latter
     * once per modal, so a page without modals keeps its `modal-open` class.
     * Any other key changes nothing.
     */
    method OnKeyDown(key: string)
      modifies shown, this
      ensures key == "Escape" ==> forall i :: 0 <= i < shown.Length ==> !shown[i]
      ensures key == "Escape" ==> bodyModalOpen == (old(bodyModalOpen) && shown.Length == 0)
      ensures key != "Escape" ==> shown[..] == old(shown[..]) && bodyModalOpen == old(bodyModalOpen)
      ensures othersShown == old(othersShown)
    {
      if key != "Escape" {
        return;
      }
      for i := 0 to shown.Length
        invariant forall j :: 0 <= j < i ==> !shown[j]
        invariant bodyModalOpen == (old(bodyModalOpen) && i == 0)
        invariant othersShown == old(othersShown)
      {
        shown[i] := false;
        bodyModalOpen := false;
      }
    }
  }

  /**
   * A trigger naming an element that is not a `.modal` locks the body, and
   * on a page without `.modal` elements Escape cannot unlock it again.
   */
  method OtherElementStaysLocked() returns (locked: bool, stillShown: bool)
    ensures locked && stillShown
  {
    var m := new Modals([], false, {});
    m.Open(OtherElement("pricing"));
    m.OnKeyDown("Escape");
    locked, stillShown := m.bodyModalOpen, "pricing" in m.othersShown;
  }

  /**
   * Typing a query of two or more characters: as wired the panel stays
   * hidden and nothing is searched; run on the search box it would show
   * the no-results note.
   */
  method TypedQueryNeverShown() returns (shownAsWired: bool, shownWhenBound: bool)
    ensures !shownAsWired && shownWhenBound
  {
    var wired := new SearchPanel(false, "");
    var threw := wired.OnInput("ai");
    var bound := new SearchPanel(false, "");
    threw := bound.OnInputBound("ai");
    shownAsWired, shownWhenBound := wired.displayed, bound.displayed;
  }
}
