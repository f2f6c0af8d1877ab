/** The address field of web/components/AddressAutocomplete.js: it turns what
    is typed into a geocoder query, keeps a keyboard selection over the
    suggestions that come back, and maps the chosen suggestion to the
    checkout form's address fields. The geocoder itself is outside the
    model: its answers arrive through `OnResults` and `OnError`. */
module AddressAutocomplete {
  import opened Wrappers
  import Text

  /** The parts of a geocoder answer's `address` the mapping reads; '' stands
      for a missing part, and a missing `address` has every part ''. */
  datatype PlaceAddress = PlaceAddress(
    city: string, town: string, village: string, county: string,
    postcode: string, road: string, houseNumber: string, state: string)

  datatype Suggestion = Suggestion(id: int, display: string, address: PlaceAddress)

  /** What `onAddressSelect` receives. */
  datatype ChosenAddress = ChosenAddress(
    fullAddress: string, address: string, city: string, postalCode: string, state: string)

  /** `a || b || …`: the first non-empty string, else ''. */
  function FirstNonEmpty(xs: seq<string>): (r: string)
    ensures r == "" <==> forall i :: 0 <= i < |xs| ==> xs[i] == ""
    ensures r != "" ==> exists i :: 0 <= i < |xs| && xs[i] == r && forall j :: 0 <= j < i ==> xs[j] == ""
    decreases |xs|
  {
    if xs == [] then ""
    else if xs[0] != "" then xs[0]
    else
      var r := FirstNonEmpty(xs[1..]);
      assert forall i :: 1 <= i < |xs| ==> xs[i] == xs[1..][i - 1];
      r
  }

  /** `[house, road].filter(Boolean)`. */
  function Named(house: string, road: string): (r: seq<string>)
    ensures forall i :: 0 <= i < |r| ==> r[i] != ""
  {
    (if house == "" then [] else [house]) + (if road == "" then [] else [road])
  }

  /** Line 90: the house number and road, else the display name up to its
      first comma. */
  function AddressLine(house: string, road: string, display: string): (r: string)
  {
    Text.OrElse(Text.Trim(Text.Join(Named(house, road), " ")), Text.Split(display, ',')[0])
  }

  /** Line 86: `city || town || village || county || ''`. */
  function City(a: PlaceAddress): string {
    FirstNonEmpty([a.city, a.town, a.village, a.county])
  }

  /** `selectSuggestion`'s mapping, lines 85-97. */
  function MapAddress(s: Suggestion): (r: ChosenAddress)
    ensures r.fullAddress == s.display
    ensures r.city == City(s.address)
    ensures r.postalCode == s.address.postcode
    ensures r.state == Text.OrElse(s.address.state, "Gujarat")
  {
    var a := s.address;
    ChosenAddress(
      s.display,
      AddressLine(a.houseNumber, a.road, s.display),
      City(a),
      a.postcode,
      Text.OrElse(a.state, "Gujarat"))
  }

  /** The city is the first of city, town, village and county that is set:
      a city wins over a town, a town over a village, and so on. */
  lemma CityPreference(a: PlaceAddress)
    ensures var c := City(a);
            && (a.city != "" ==> c == a.city)
            && (a.city == "" && a.town != "" ==> c == a.town)
            && (a.city == "" && a.town == "" && a.village != "" ==> c == a.village)
            && (a.city == "" && a.town == "" && a.village == "" ==> c == a.county)
  {
    var xs := [a.city, a.town, a.village, a.county];
    assert xs[1..] == [a.town, a.village, a.county];
    assert xs[1..][1..] == [a.village, a.county];
    assert xs[1..][1..][1..] == [a.county];
    assert xs[1..][1..][1..][1..] == [];
    if a.city == "" {
      assert City(a) == FirstNonEmpty(xs[1..]);
      if a.town == "" {
        assert FirstNonEmpty(xs[1..]) == FirstNonEmpty(xs[1..][1..]);
        if a.village == "" {
          assert FirstNonEmpty(xs[1..][1..]) == FirstNonEmpty(xs[1..][1..][1..]);
        }
      }
    }
  }

  /** The address line is the trimmed house number and road, joined by a
      space when both are set. When both are empty or only white space it
      is the display name's first segment instead. It holds no comma unless
      the house number or road does. */
  lemma AddressLineCases(house: string, road: string, display: string)
    ensures Text.AllSpace(house) && Text.AllSpace(road) ==> AddressLine(house, road, display) == Text.Split(display, ',')[0]
    ensures !Text.AllSpace(house) && road == "" ==> AddressLine(house, road, display) == Text.Trim(house)
    ensures Text.AllSpace(house) && !Text.AllSpace(road) ==> AddressLine(house, road, display) == Text.Trim(road)
    ensures !Text.AllSpace(house) && road != "" ==> AddressLine(house, road, display) == Text.Trim(house + " " + road)
    ensures ',' !in house && ',' !in road ==> ',' !in AddressLine(house, road, display)
  {
    var fallback := Text.Split(display, ',')[0];
    assert ',' !in fallback;
    if house != "" && road != "" {
      assert Named(house, road) == [house, road];
      assert [house, road][1..] == [road];
      var joined := house + " " + road;
      assert Text.Join([house, road], " ") == joined;
      if Text.AllSpace(house) && Text.AllSpace(road) {
        assert forall i :: 0 <= i < |joined| ==> Text.IsSpace(joined[i]) by {
          forall i | 0 <= i < |joined|
            ensures Text.IsSpace(joined[i])
          {
            if i < |house| {
              assert joined[i] == house[i];
            } else if i == |house| {
              assert joined[i] == ' ';
            } else {
              assert joined[i] == road[i - |house| - 1];
            }
          }
        }
      }
      if Text.AllSpace(house) {
        var lead := house + " ";
        assert Text.AllSpace(lead) by {
          forall i | 0 <= i < |lead|
            ensures Text.IsSpace(lead[i])
          {
            if i < |house| {
              assert lead[i] == house[i];
            }
          }
        }
        assert joined == lead + road;
        Text.TrimLeadingSpaces(lead, road);
      }
      if !Text.AllSpace(house) {
        var k :| 0 <= k < |house| && !Text.IsSpace(house[k]);
        assert joined[k] == house[k];
      }
      if ',' !in house && ',' !in road {
        assert forall i :: 0 <= i < |joined| ==> joined[i] != ',' by {
          forall i | 0 <= i < |joined|
            ensures joined[i] != ','
          {
            if i < |house| {
              assert joined[i] == house[i];
            } else if i > |house| {
              assert joined[i] == road[i - |house| - 1];
            }
          }
        }
        Text.TrimKeepsOut(joined, ',');
      }
    } else if house != "" {
      assert Named(house, road) == [house];
      if ',' !in house {
        Text.TrimKeepsOut(house, ',');
      }
    } else if road != "" {
      assert Named(house, road) == [road];
      if ',' !in road {
        Text.TrimKeepsOut(road, ',');
      }
    } else {
      assert Named(house, road) == [];
      assert Text.AllSpace("");
    }
  }

  /** A house number and road take precedence; the state falls back to
      Gujarat. */
  lemma MapAddressExample()
    ensures var a := PlaceAddress("", "Anand", "", "", "", "MG Road", "12", "");
            var r := MapAddress(Suggestion(1, "12, MG Road, Anand", a));
            r.city == "Anand" && r.state == "Gujarat" && r.postalCode == ""
            && r.fullAddress == "12, MG Road, Anand"
  {
  }

  /** The query the debounce timer waits with after `q` is typed: none for
      a blank `q`, otherwise the trimmed text. */
  function Awaiting(q: string): (r: Option<string>)
    ensures r == None <==> Text.AllSpace(q)
    ensures r.Some? ==> r.value == Text.Trim(q)
  {
    if Text.AllSpace(q) then None else Some(Text.Trim(q))
  }

  datatype KeyPress = ArrowDown | ArrowUp | Enter | Escape | OtherKey

  /** The component's state. `pending` is the debounced query waiting for
      its timer, `fetched` the queries sent to the geocoder and `chosen` the
      `onAddressSelect` calls. */
  class Field {
    var query: string
    var suggestions: seq<Suggestion>
    var show: bool
    var selectedIndex: int
    var pending: Option<string>
    var fetched: seq<string>
    var chosen: seq<ChosenAddress>

    /** While the list shows it is non-empty and the selection is either
        none (-1) or one of its entries; the selection never drops below -1. */
    predicate Valid()
      reads this
    {
      && selectedIndex >= -1
      && (show ==> |suggestions| > 0 && selectedIndex < |suggestions|)
    }

    constructor ()
      ensures Valid()
      ensures query == "" && suggestions == [] && !show && selectedIndex == -1
      ensures pending == None && fetched == [] && chosen == []
    {
      query := "";
      suggestions := [];
      show := false;
      selectedIndex := -1;
      pending := None;
      fetched := [];
      chosen := [];
    }

    /** The effect on `query`, lines 18-30: a blank query drops the waiting
        request and clears and hides the list; any other waits for the timer
        with its trimmed text. */
    method QueryChanged()
      requires Valid()
      modifies this
      ensures Valid()
      ensures query == old(query) && fetched == old(fetched) && chosen == old(chosen)
      ensures Text.AllSpace(query) ==>
                suggestions == [] && !show && pending == None && selectedIndex == old(selectedIndex)
      ensures !Text.AllSpace(query) ==>
                pending == Some(Text.Trim(query)) && suggestions == old(suggestions)
                && show == old(show) && selectedIndex == old(selectedIndex)
    {
      pending := None;
      if query == "" || |Text.Trim(query)| < 1 {
        suggestions := [];
        show := false;
        return;
      }
      pending := Some(Text.Trim(query));
    }

    /** `setQuery(q)`: React re-runs the effect only when the value changes. */
    method SetQuery(q: string)
      requires Valid()
      modifies this
      ensures Valid()
      ensures query == q && fetched == old(fetched) && chosen == old(chosen)
      ensures q == old(query) ==> suggestions == old(suggestions) && show == old(show) && pending == old(pending)
      ensures q != old(query) ==> pending == Awaiting(q)
      ensures q != old(query) && Text.AllSpace(q) ==> suggestions == [] && !show
      ensures q != old(query) && !Text.AllSpace(q) ==> suggestions == old(suggestions) && show == old(show)
      ensures selectedIndex == old(selectedIndex)
    {
      if q != query {
        query := q;
        QueryChanged();
      }
    }

    /** The debounce timer fires: the waiting query goes to the geocoder. */
    method Fire()
      requires Valid() && pending.Some?
      modifies this
      ensures Valid()
      ensures fetched == old(fetched) + [old(pending).value] && pending == None
      ensures query == old(query) && suggestions == old(suggestions) && show == old(show)
      ensures selectedIndex == old(selectedIndex) && chosen == old(chosen)
    {
      fetched := fetched + [pending.value];
      pending := None;
    }

    /** Lines 51-53: new results replace the list, reset the selection and
        show the list only when there is something in it. */
    method OnResults(results: seq<Suggestion>)
      requires Valid()
      modifies this
      ensures Valid()
      ensures suggestions == results && show == (|results| > 0) && selectedIndex == -1
      ensures query == old(query) && pending == old(pending) && fetched == old(fetched) && chosen == old(chosen)
    {
      suggestions := results;
      show := |results| > 0;
      selectedIndex := -1;
    }

    /** Lines 54-58: a failed request clears and hides the list. */
    method OnError()
      requires Valid()
      modifies this
      ensures Valid()
      ensures suggestions == [] && !show && selectedIndex == old(selectedIndex)
      ensures query == old(query) && pending == old(pending) && fetched == old(fetched) && chosen == old(chosen)
    {
      suggestions := [];
      show := false;
    }

    /** `selectSuggestion`, lines 81-98. */
    method Select(s: Suggestion)
      requires Valid()
      modifies this
      ensures Valid()
      ensures !show && query == s.display && chosen == old(chosen) + [MapAddress(s)]
      ensures fetched == old(fetched) && selectedIndex == old(selectedIndex)
      ensures s.display == old(query) ==> pending == old(pending) && suggestions == old(suggestions)
      ensures s.display != old(query) ==> pending == Awaiting(s.display)
      ensures s.display != old(query) && Text.AllSpace(s.display) ==> suggestions == []
      ensures s.display != old(query) && !Text.AllSpace(s.display) ==> suggestions == old(suggestions)
    {
      show := false;
      SetQuery(s.display);
      show := false;
      Report(MapAddress(s));
    }

    /** `onAddressSelect(m)`. */
    method Report(m: ChosenAddress)
      modifies this
      ensures chosen == old(chosen) + [m]
      ensures query == old(query) && suggestions == old(suggestions) && show == old(show)
      ensures selectedIndex == old(selectedIndex) && pending == old(pending) && fetched == old(fetched)
    {
      chosen := chosen + [m];
    }

    /** `handleKeyDown`, lines 65-79. */
    method KeyDown(key: KeyPress)
      requires Valid()
      modifies this
      ensures Valid()
      ensures fetched == old(fetched)
      ensures !old(show) ==> query == old(query) && selectedIndex == old(selectedIndex) && show == old(show) && chosen == old(chosen)
                             && suggestions == old(suggestions) && pending == old(pending)
      ensures old(show) && key == ArrowDown ==>
                selectedIndex == (if old(selectedIndex) + 1 < |old(suggestions)| then old(selectedIndex) + 1 else |old(suggestions)| - 1)
                && show && chosen == old(chosen)
      ensures old(show) && key == ArrowUp ==>
                selectedIndex == (if old(selectedIndex) - 1 > 0 then old(selectedIndex) - 1 else 0)
                && show && chosen == old(chosen)
      ensures old(show) && key == Escape ==> !show && selectedIndex == old(selectedIndex) && chosen == old(chosen)
      ensures old(show) && key == Enter && old(selectedIndex) >= 0 ==>
                var e := old(suggestions)[old(selectedIndex)];
                chosen == old(chosen) + [MapAddress(e)] && !show && query == e.display
                && selectedIndex == old(selectedIndex)
                && (e.display == old(query) ==> pending == old(pending) && suggestions == old(suggestions))
                && (e.display != old(query) ==> pending == Awaiting(e.display))
                && (e.display != old(query) && Text.AllSpace(e.display) ==> suggestions == [])
                && (e.display != old(query) && !Text.AllSpace(e.display) ==> suggestions == old(suggestions))
      ensures old(show) && key == Enter && old(selectedIndex) < 0 ==>
                chosen == old(chosen) && show && query == old(query) && selectedIndex == old(selectedIndex)
                && suggestions == old(suggestions) && pending == old(pending)
      ensures old(show) && key == OtherKey ==> chosen == old(chosen) && show && selectedIndex == old(selectedIndex)
      ensures key != Enter ==> suggestions == old(suggestions) && query == old(query) && pending == old(pending)
    {
      if !show {
        return;
      }
      match key {
        case ArrowDown =>
          selectedIndex := Min(selectedIndex + 1, |suggestions| - 1);
        case ArrowUp =>
          selectedIndex := Max(selectedIndex - 1, 0);
        case Enter =>
          if selectedIndex >= 0 && selectedIndex < |suggestions| {
            Select(suggestions[selectedIndex]);
          }
        case Escape =>
          show := false;
        case OtherKey =>
      }
    }

    /** A press on a shown entry, lines 118-122. */
    method Click(i: int)
      requires Valid() && show && 0 <= i < |suggestions|
      modifies this
      ensures Valid()
      ensures var e := old(suggestions)[i];
              !show && chosen == old(chosen) + [MapAddress(e)] && query == e.display
              && selectedIndex == old(selectedIndex) && fetched == old(fetched)
              && (e.display == old(query) ==> pending == old(pending) && suggestions == old(suggestions))
              && (e.display != old(query) ==> pending == Awaiting(e.display))
              && (e.display != old(query) && Text.AllSpace(e.display) ==> suggestions == [])
              && (e.display != old(query) && !Text.AllSpace(e.display) ==> suggestions == old(suggestions))
    {
      Select(suggestions[i]);
    }
  }

  function Min(a: int, b: int): int { if a < b then a else b }
  function Max(a: int, b: int): int { if a > b then a else b }

  /** One arrow press on a shown list of `n` entries: ArrowDown moves to the
      next entry but stops at the last, ArrowUp moves to the previous one but
      stops at the first. */
  function Arrow(sel: int, n: int, key: KeyPress): int {
    if key == ArrowDown then Min(sel + 1, n - 1)
    else if key == ArrowUp then Max(sel - 1, 0)
    else sel
  }

  predicate IsArrow(key: KeyPress) { key == ArrowDown || key == ArrowUp }

  /** The selection after a run of arrow presses, one press at a time. */
  function Navigate(sel: int, n: int, keys: seq<KeyPress>): int
    decreases |keys|
  {
    if keys == [] then sel else Arrow(Navigate(sel, n, keys[..|keys| - 1]), n, keys[|keys| - 1])
  }

  /** Presses keep the selection on the list, and after an arrow press some
      entry is selected. */
  lemma {:induction false} NavigateInRange(sel: int, n: int, keys: seq<KeyPress>)
    requires n > 0 && -1 <= sel < n
    ensures -1 <= Navigate(sel, n, keys) < n
    ensures keys != [] && IsArrow(keys[|keys| - 1]) ==> 0 <= Navigate(sel, n, keys)
    decreases |keys|
  {
    if keys != [] {
      NavigateInRange(sel, n, keys[..|keys| - 1]);
    }
  }

  /** `k` ArrowDown presses move the selection down by `k`, but never past
      the last entry. */
  lemma {:induction false} ArrowDownsStopAtLast(sel: int, n: int, k: nat)
    requires n > 0 && -1 <= sel < n
    ensures Navigate(sel, n, seq(k, _ => ArrowDown)) == Min(sel + k, n - 1)
    decreases k
  {
    var keys := seq(k, _ => ArrowDown);
    if k > 0 {
      assert keys[..k - 1] == seq(k - 1, _ => ArrowDown);
      ArrowDownsStopAtLast(sel, n, k - 1);
    }
  }

  /** A run of arrow presses on a shown list changes only the selection, to
      the one `Navigate` gives; the list stays shown and nothing is chosen. */
  method PressKeys(f: Field, keys: seq<KeyPress>)
    requires f.Valid() && f.show
    requires forall i :: 0 <= i < |keys| ==> IsArrow(keys[i])
    modifies f
    ensures f.Valid() && f.show
    ensures f.selectedIndex == Navigate(old(f.selectedIndex), |f.suggestions|, keys)
    ensures f.suggestions == old(f.suggestions) && f.query == old(f.query) && f.pending == old(f.pending)
    ensures f.chosen == old(f.chosen) && f.fetched == old(f.fetched)
  {
    var i := 0;
    while i < |keys|
      invariant 0 <= i <= |keys|
      invariant f.Valid() && f.show
      invariant f.selectedIndex == Navigate(old(f.selectedIndex), |f.suggestions|, keys[..i])
      invariant f.suggestions == old(f.suggestions) && f.query == old(f.query) && f.pending == old(f.pending)
      invariant f.chosen == old(f.chosen) && f.fetched == old(f.fetched)
    {
      assert keys[..i + 1][..i] == keys[..i];
      f.KeyDown(keys[i]);
      i := i + 1;
    }
    assert keys[..|keys|] == keys;
  }
}
