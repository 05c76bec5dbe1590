/**
 * The client-side state of the admin "Add / Edit Package" form: the itinerary
 * kept in step with the duration field, the per-day description edit, the
 * selection of included places, and the validation gate in front of the
 * single save call.
 */
module PackageForm {
  import opened Wrappers
  import opened JsString

  // ---------------------------------------------------------------------------
  // Itinerary
  // ---------------------------------------------------------------------------

  /** One itinerary row, `{ day, description }`. */
  datatype Entry = Entry(day: int, description: string)

  /** Row k holds day k + 1: the numbering every itinerary the form builds has. */
  predicate Numbered(s: seq<Entry>)
  {
    forall k :: 0 <= k < |s| ==> s[k].day == k + 1
  }

  /** The blank rows `{ day: i, description: '' }` for i = from, ..., to, in order. */
  function BlankDays(from: int, to: int): (r: seq<Entry>)
    decreases to - from
    ensures |r| == if to < from then 0 else to - from + 1
    ensures forall k :: 0 <= k < |r| ==> r[k] == Entry(from + k, "")
  {
    if to < from then [] else BlankDays(from, to - 1) + [Entry(to, "")]
  }

  /**
   * The itinerary the duration effect derives from the previous one for a
   * duration of n days: blank days appended up to day n, or the tail cut off.
   */
  function Resized(prev: seq<Entry>, n: nat): (r: seq<Entry>)
    ensures |r| == n
    ensures n <= |prev| ==> r == prev[..n]
    ensures |prev| <= n ==> r[..|prev|] == prev
    ensures forall k :: |prev| <= k < n ==> r[k] == Entry(k + 1, "")
  {
    if |prev| < n then prev + BlankDays(|prev| + 1, n)
    else if |prev| > n then prev[..n]
    else prev
  }

  /**
   * The duration effect: an empty duration field (None) leaves the itinerary
   * as it is; otherwise there are as many rows as days, the surviving old rows
   * are kept and the rest are blank.
   */
  function DurationEffect(prev: seq<Entry>, duration: Option<nat>): (r: seq<Entry>)
    ensures duration.None? ==> r == prev
    ensures duration.Some? ==> |r| == duration.value
    ensures forall k :: 0 <= k < |r| && k < |prev| ==> r[k] == prev[k]
    ensures forall k :: |prev| <= k < |r| ==> r[k] == Entry(k + 1, "")
  {
    match duration
    case None => prev
    case Some(n) => Resized(prev, n)
  }

  /** `prev.map(item => item.day === day ? { ...item, description } : item)`. */
  function Edited(s: seq<Entry>, day: int, text: string): (r: seq<Entry>)
    ensures |r| == |s|
    ensures forall k :: 0 <= k < |s| ==> r[k].day == s[k].day
    ensures forall k :: 0 <= k < |s| ==>
              r[k].description == if s[k].day == day then text else s[k].description
  {
    if s == [] then []
    else [if s[0].day == day then s[0].(description := text) else s[0]] + Edited(s[1..], day, text)
  }

  /** Resizing to the length it already has, or twice to the same length, changes nothing more. */
  lemma ResizedIdempotent(prev: seq<Entry>, n: nat)
    ensures Resized(prev, |prev|) == prev
    ensures Resized(Resized(prev, n), n) == Resized(prev, n)
  {
  }

  /** Growing and then shrinking back to the old duration restores the old itinerary exactly. */
  lemma GrowThenShrink(prev: seq<Entry>, n: nat)
    requires |prev| <= n
    ensures Resized(Resized(prev, n), |prev|) == prev
  {
  }

  /** Resizing keeps the numbering. */
  lemma ResizedKeepsNumbered(prev: seq<Entry>, n: nat)
    requires Numbered(prev)
    ensures Numbered(Resized(prev, n))
  {
  }

  /** Editing keeps the numbering. */
  lemma EditedKeepsNumbered(s: seq<Entry>, day: int, text: string)
    requires Numbered(s)
    ensures Numbered(Edited(s, day, text))
  {
  }

  /** On a numbered itinerary an edit of day d in 1..|s| replaces exactly row d - 1. */
  lemma EditedNumberedDay(s: seq<Entry>, d: int, text: string)
    requires Numbered(s) && 1 <= d <= |s|
    ensures Edited(s, d, text) == s[d - 1 := Entry(d, text)]
  {
  }

  /** An edit naming a day that no row has is a no-op. */
  lemma EditedMissingDay(s: seq<Entry>, d: int, text: string)
    requires forall k :: 0 <= k < |s| ==> s[k].day != d
    ensures Edited(s, d, text) == s
  {
  }

  /** Editing the same day twice keeps only the second text. */
  lemma EditedLastWins(s: seq<Entry>, d: int, a: string, b: string)
    ensures Edited(Edited(s, d, a), d, b) == Edited(s, d, b)
  {
  }

  /** An input event that reaches the itinerary: a duration change or a day edit. */
  datatype FormEvent = DurationChanged(duration: Option<nat>) | DayEdited(day: int, text: string)

  /** The itinerary after the events, applied in order, to `s`. */
  function Replay(s: seq<Entry>, events: seq<FormEvent>): seq<Entry>
    decreases |events|
  {
    if events == [] then s
    else
      var next := match events[0]
        case DurationChanged(d) => DurationEffect(s, d)
        case DayEdited(day, text) => Edited(s, day, text);
      Replay(next, events[1..])
  }

  /** Starting from a numbered itinerary (the form starts from []), every event sequence keeps it numbered. */
  lemma {:induction false} ReplayKeepsNumbered(s: seq<Entry>, events: seq<FormEvent>)
    requires Numbered(s)
    ensures Numbered(Replay(s, events))
    decreases |events|
  {
    if events != [] {
      match events[0]
      case DurationChanged(d) =>
        if d.Some? { ResizedKeepsNumbered(s, d.value); }
        ReplayKeepsNumbered(DurationEffect(s, d), events[1..]);
      case DayEdited(day, text) =>
        EditedKeepsNumbered(s, day, text);
        ReplayKeepsNumbered(Edited(s, day, text), events[1..]);
    }
  }

  /** Duration 3, edit day 2, duration 2: the two first days survive with the edit. */
  lemma ThreeDaysEditShrink()
    ensures Replay([], [DurationChanged(Some(3)), DayEdited(2, "Beach day"), DurationChanged(Some(2))])
            == [Entry(1, ""), Entry(2, "Beach day")]
  {
    var three := Resized([], 3);
    assert three == [Entry(1, ""), Entry(2, ""), Entry(3, "")];
    EditedNumberedDay(three, 2, "Beach day");
  }

  // ---------------------------------------------------------------------------
  // Selected places
  // ---------------------------------------------------------------------------

  /** `s.filter(id => id !== p)`. */
  function Without(s: seq<string>, p: string): (r: seq<string>)
    ensures forall x :: x in r <==> x in s && x != p
    ensures |r| <= |s|
  {
    if s == [] then [] else (if s[0] == p then [] else [s[0]]) + Without(s[1..], p)
  }

  /** Filtering out an absent id returns the list itself. */
  lemma {:induction false} WithoutAbsent(s: seq<string>, p: string)
    requires p !in s
    ensures Without(s, p) == s
  {
    if s != [] {
      WithoutAbsent(s[1..], p);
    }
  }

  /** Filtering distributes over concatenation. */
  lemma {:induction false} WithoutAppend(a: seq<string>, b: seq<string>, p: string)
    ensures Without(a + b, p) == Without(a, p) + Without(b, p)
  {
    if a != [] {
      assert (a + b)[1..] == a[1..] + b;
      WithoutAppend(a[1..], b, p);
    } else {
      assert a + b == b;
    }
  }

  /** The list has no repeated id. */
  predicate Distinct(s: seq<string>)
  {
    forall i, j :: 0 <= i < j < |s| ==> s[i] != s[j]
  }

  /** Filtering keeps a list free of repeats. */
  lemma {:induction false} WithoutKeepsDistinct(s: seq<string>, p: string)
    requires Distinct(s)
    ensures Distinct(Without(s, p))
  {
    if s != [] {
      assert Distinct(s[1..]) by {
        forall i, j | 0 <= i < j < |s[1..]| ensures s[1..][i] != s[1..][j] {
          assert s[1..][i] == s[i + 1] && s[1..][j] == s[j + 1];
        }
      }
      WithoutKeepsDistinct(s[1..], p);
      assert s[0] !in s[1..];
      var head: seq<string> := if s[0] == p then [] else [s[0]];
      var tail := Without(s[1..], p);
      forall i, j | 0 <= i < j < |head + tail| ensures (head + tail)[i] != (head + tail)[j] {
        if i < |head| {
          assert (head + tail)[j] == tail[j - |head|];
          assert tail[j - |head|] in tail;
        } else {
          assert (head + tail)[i] == tail[i - |head|] && (head + tail)[j] == tail[j - |head|];
        }
      }
    }
  }

  /** `handlePlaceToggle`: remove the id when it is selected, append it otherwise. */
  function Toggled(s: seq<string>, p: string): (r: seq<string>)
    ensures p in r <==> p !in s
    ensures forall q :: q != p ==> (q in r <==> q in s)
  {
    if p in s then Without(s, p) else s + [p]
  }

  /** Toggling keeps the selection free of repeats. */
  lemma ToggledKeepsDistinct(s: seq<string>, p: string)
    requires Distinct(s)
    ensures Distinct(Toggled(s, p))
  {
    if p in s {
      WithoutKeepsDistinct(s, p);
    }
  }

  /** Toggling an unselected id twice restores the exact original list. */
  lemma ToggleTwiceAbsent(s: seq<string>, p: string)
    requires p !in s
    ensures Toggled(Toggled(s, p), p) == s
  {
    WithoutAppend(s, [p], p);
    WithoutAbsent(s, p);
    assert Without([p], p) == [];
  }

  /** Toggling any id twice restores which ids are selected. */
  lemma ToggleTwiceSameMembers(s: seq<string>, p: string)
    ensures forall x :: x in Toggled(Toggled(s, p), p) <==> x in s
  {
  }

  /** Toggling a selected id twice moves it to the end: membership returns, the order need not. */
  lemma ToggleTwicePresentReorders()
    ensures Toggled(Toggled(["a", "b"], "a"), "a") == ["b", "a"]
  {
  }

  // ---------------------------------------------------------------------------
  // Submission
  // ---------------------------------------------------------------------------

  const DestinationRequired := "Please select a destination"
  const DescriptionsRequired := "Please provide description for all days"
  const SaveFailedFallback := "An error occurred"

  /** `s.some(p)`: some element satisfies p. */
  function AnyMatches<T>(s: seq<T>, p: T -> bool): (r: bool)
    ensures r <==> exists k :: 0 <= k < |s| && p(s[k])
  {
    if s == [] then false
    else p(s[0]) || AnyMatches(s[1..], p)
  }

  /** `itinerary.some(day => !day.description.trim())`. */
  function AnyBlank(s: seq<Entry>): (r: bool)
    ensures r <==> exists k :: 0 <= k < |s| && IsBlank(s[k].description)
  {
    AnyMatches(s, (e: Entry) => IsBlank(e.description))
  }

  /** The two reasons the validation of `handleSubmit` refuses to save. */
  datatype Rejection = NoDestination | BlankDay
  {
    /** The message the form shows for the rejection; each rejection has its own. */
    function Message(): (r: string)
      ensures r == DestinationRequired <==> this == NoDestination
      ensures r == DescriptionsRequired <==> this == BlankDay
    {
      assert |DestinationRequired| != |DescriptionsRequired|;
      match this
      case NoDestination => DestinationRequired
      case BlankDay => DescriptionsRequired
    }
  }

  /**
   * The validation of `handleSubmit`: why it refuses to save, or None when the
   * save may go ahead. The destination is checked first, then the days.
   */
  function Gate(destinationId: string, itinerary: seq<Entry>): (r: Option<Rejection>)
    ensures r == Some(NoDestination) <==> destinationId == ""
    ensures r == Some(BlankDay) <==>
              destinationId != "" && exists k :: 0 <= k < |itinerary| && AllWhitespace(itinerary[k].description)
    ensures r == None <==>
              destinationId != "" && forall k :: 0 <= k < |itinerary| ==> !AllWhitespace(itinerary[k].description)
  {
    assert forall k :: 0 <= k < |itinerary| ==>
        (IsBlank(itinerary[k].description) <==> AllWhitespace(itinerary[k].description)) by {
      forall k | 0 <= k < |itinerary| {
        BlankIffAllWhitespace(itinerary[k].description);
      }
    }
    if destinationId == "" then Some(NoDestination)
    else if AnyBlank(itinerary) then Some(BlankDay)
    else None
  }

  /** The days a fresh duration produces are blank, so they block the save until each is filled in. */
  lemma FreshDaysBlockSave(destinationId: string, n: nat)
    requires destinationId != "" && n >= 1
    ensures Gate(destinationId, Resized([], n)) == Some(BlankDay)
  {
  }

  /** A package being edited, as the form receives it through its `package` prop. */
  datatype PackageRow = PackageRow(
    destinationId: string,
    title: string,
    description: string,
    duration: Option<nat>,
    price: Option<string>,    // the price's text, `pkg.price.toString()`
    rating: Option<real>,
    mainImageUrl: string)

  /** The record handed to `onSave`. */
  datatype PackageRecord = PackageRecord(
    destinationId: string,
    title: string,
    description: string,
    duration: Option<nat>,    // `parseInt(duration)`; None for the empty field (NaN)
    price: string,            // the price field's text, passed through unparsed
    rating: real,
    mainImageUrl: string)

  /** `pkg?.rating || 0`: the edited package's rating when it has one, otherwise 0. */
  function RatingOf(pkg: Option<PackageRow>): (r: real)
    ensures pkg.Some? && pkg.value.rating.Some? ==> r == pkg.value.rating.value
    ensures pkg.None? || pkg.value.rating.None? ==> r == 0.0
  {
    if pkg.Some? && pkg.value.rating.Some? && pkg.value.rating.value != 0.0
    then pkg.value.rating.value
    else 0.0
  }

  /** What a call into the form's props did: complete, or throw a value. */
  datatype Outcome = Completed | Threw(thrown: Thrown)

  /** A thrown value: an `Error` carrying a message, or anything else. */
  datatype Thrown = ErrorObject(message: string) | OtherValue

  /** `err instanceof Error ? err.message : 'An error occurred'`. */
  function FailureMessage(t: Thrown): (r: string)
    ensures t.ErrorObject? ==> r == t.message
    ensures t.OtherValue? ==> r == SaveFailedFallback
  {
    match t
    case ErrorObject(m) => m
    case OtherValue => SaveFailedFallback
  }

  /** Numbered days, as many as the duration says, and no place selected twice. */
  predicate Consistent(duration: Option<nat>, itinerary: seq<Entry>, selectedPlaces: seq<string>)
  {
    Numbered(itinerary) && Distinct(selectedPlaces)
    && (duration.Some? ==> |itinerary| == duration.value)
  }

  /** The form's state; the input fields not listed are pure pass-through bindings. */
  class PackageFormState {
    const existing: Option<PackageRow>
    var title: string
    var description: string
    var duration: Option<nat>            // None: the field holds the empty string
    var price: string
    var mainImageUrl: string
    var selectedDestinationId: string
    var itinerary: seq<Entry>
    var selectedPlaces: seq<string>
    var loading: bool
    var error: string
    var saves: seq<PackageRecord>        // every call made to onSave, in order
    var closeCalls: nat                  // how often onClose was called

    /** What the form keeps true between events. */
    ghost predicate Valid()
      reads this
    {
      Consistent(duration, itinerary, selectedPlaces)
    }

    /** The record `handleSubmit` builds from the current fields. */
    function Record(): (r: PackageRecord)
      reads this
      ensures r.destinationId == selectedDestinationId && r.duration == duration && r.price == price
      ensures r.title == title && r.description == description && r.mainImageUrl == mainImageUrl
      ensures r.rating == RatingOf(existing)
    {
      PackageRecord(selectedDestinationId, title, description, duration, price,
                    RatingOf(existing), mainImageUrl)
    }

    /** Mounting the form: the initial field values, then the first run of the duration effect. */
    constructor (pkg: Option<PackageRow>, initialDestinationId: string)
      ensures Valid()
      ensures existing == pkg
      ensures title == (if pkg.Some? then pkg.value.title else "")
      ensures description == (if pkg.Some? then pkg.value.description else "")
      ensures duration == (if pkg.Some? then pkg.value.duration else None)
      ensures price == (if pkg.Some? && pkg.value.price.Some? then pkg.value.price.value else "")
      ensures mainImageUrl == (if pkg.Some? then pkg.value.mainImageUrl else "")
      ensures selectedDestinationId ==
                (if initialDestinationId != "" then initialDestinationId
                 else if pkg.Some? then pkg.value.destinationId else "")
      ensures itinerary == DurationEffect([], duration)
      ensures selectedPlaces == [] && !loading && error == ""
      ensures saves == [] && closeCalls == 0
    {
      existing := pkg;
      title := if pkg.Some? then pkg.value.title else "";
      description := if pkg.Some? then pkg.value.description else "";
      duration := if pkg.Some? then pkg.value.duration else None;
      price := if pkg.Some? && pkg.value.price.Some? then pkg.value.price.value else "";
      mainImageUrl := if pkg.Some? then pkg.value.mainImageUrl else "";
      selectedDestinationId :=
        if initialDestinationId != "" then initialDestinationId
        else if pkg.Some? then pkg.value.destinationId else "";
      itinerary := [];
      selectedPlaces := [];
      loading := false;
      error := "";
      saves := [];
      closeCalls := 0;
      new;
      ApplyDuration();
      if duration.Some? {
        ResizedKeepsNumbered([], duration.value);
      }
    }

    /** The duration effect: copy the list, push blank days up to the duration, or slice the tail off. */
    method ApplyDuration()
      modifies this`itinerary
      ensures itinerary == DurationEffect(old(itinerary), duration)
    {
      if duration.Some? {
        var days := duration.value;
        var next := itinerary;
        ghost var prev := itinerary;
        if |next| < days {
          var i := |next| + 1;
          while i <= days
            invariant |prev| + 1 <= i <= days + 1
            invariant next == prev + BlankDays(|prev| + 1, i - 1)
          {
            next := next + [Entry(i, "")];
            i := i + 1;
          }
        } else if |next| > days {
          next := next[..days];
        }
        itinerary := next;
      }
    }

    /** Typing into the duration field, which re-runs the duration effect. */
    method SetDuration(d: Option<nat>)
      requires Valid()
      modifies this`duration, this`itinerary
      ensures Valid()
      ensures duration == d
      ensures itinerary == DurationEffect(old(itinerary), d)
    {
      duration := d;
      ApplyDuration();
      if d.Some? {
        ResizedKeepsNumbered(old(itinerary), d.value);
      }
    }

    /** Choosing a destination in the selector. */
    method SetDestination(id: string)
      requires Valid()
      modifies this`selectedDestinationId
      ensures Valid()
      ensures selectedDestinationId == id
    {
      selectedDestinationId := id;
    }

    /** `handleItineraryChange(day, text)`. */
    method EditDay(day: int, text: string)
      requires Valid()
      modifies this`itinerary
      ensures Valid()
      ensures itinerary == Edited(old(itinerary), day, text)
    {
      EditedKeepsNumbered(itinerary, day, text);
      itinerary := Edited(itinerary, day, text);
    }

    /** `handlePlaceToggle(placeId)`. */
    method TogglePlace(placeId: string)
      requires Valid()
      modifies this`selectedPlaces
      ensures Valid()
      ensures selectedPlaces == Toggled(old(selectedPlaces), placeId)
    {
      ToggledKeepsDistinct(selectedPlaces, placeId);
      selectedPlaces := Toggled(selectedPlaces, placeId);
    }

    /**
     * `handleSubmit`, with `onSave` and `onClose` behaving as `save` and
     * `close` say: a failed validation shows its message and saves nothing;
     * otherwise exactly one save, then a close on success, and the message of
     * whichever call threw (both run inside the same `try`).
     */
    method Submit(save: Outcome, close: Outcome)
      requires Valid()
      modifies this`error, this`loading, this`saves, this`closeCalls
      ensures Valid()
      ensures !loading
      ensures Gate(selectedDestinationId, itinerary).Some? ==>
                error == Gate(selectedDestinationId, itinerary).value.Message()
                && saves == old(saves) && closeCalls == old(closeCalls)
      ensures Gate(selectedDestinationId, itinerary).None? ==>
                saves == old(saves) + [Record()]
                && (save.Completed? ==>
                      closeCalls == old(closeCalls) + 1
                      && error == (if close.Completed? then "" else FailureMessage(close.thrown)))
                && (save.Threw? ==> closeCalls == old(closeCalls) && error == FailureMessage(save.thrown))
    {
      error := "";
      loading := true;
      if selectedDestinationId == "" {
        error := DestinationRequired;
        loading := false;
      } else if AnyBlank(itinerary) {
        error := DescriptionsRequired;
        loading := false;
      } else {
        saves := saves + [Record()];
        match save {
          case Completed =>
            closeCalls := closeCalls + 1;
            if close.Threw? {
              error := FailureMessage(close.thrown);
            }
          case Threw(thrown) =>
            error := FailureMessage(thrown);
        }
        loading := false;
      }
    }
  }
}
