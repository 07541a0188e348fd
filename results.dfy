/** The result viewer (components/steps/ResultStep.tsx): a zero-based cursor
    over the generated photos, moved by two arrows that are disabled at the
    ends, plus the two restart buttons and the download file name. */
module Results {
  import opened Types

  /** The two navigation arrows. */
  datatype Arrow = Previous | Next

  /** The two buttons that leave the viewer. */
  datatype RestartButton = BackToHome | ChangeTemplate

  /** The arrows are rendered only when there is more than one result. */
  predicate ArrowsShown(count: nat)
  {
    count > 1
  }

  /** An arrow can be pressed: it is rendered and not disabled ("previous" is
      disabled at the first result, "next" at the last). */
  predicate Enabled(index: int, count: nat, arrow: Arrow)
    ensures Enabled(index, count, arrow) ==> count > 1
    ensures 0 <= index < count && Enabled(index, count, arrow) ==>
      0 <= (if arrow == Previous then index - 1 else index + 1) < count
  {
    ArrowsShown(count)
    && match arrow
       case Previous => index != 0
       case Next => index != count - 1
  }

  /** The cursor after one press. A press that cannot happen leaves it where it
      is; an enabled press moves it by one; from a valid position it stays
      valid. */
  function Press(index: int, count: nat, arrow: Arrow): (next: int)
    ensures !Enabled(index, count, arrow) ==> next == index
    ensures arrow == Previous && Enabled(index, count, arrow) ==> next == index - 1
    ensures arrow == Next && Enabled(index, count, arrow) ==> next == index + 1
    ensures 0 <= index < count ==> 0 <= next < count
  {
    if !Enabled(index, count, arrow) then index
    else match arrow
         case Previous => index - 1
         case Next => index + 1
  }

  /** The cursor after a sequence of presses. */
  function PressAll(index: int, count: nat, arrows: seq<Arrow>): int
    decreases |arrows|
  {
    if arrows == [] then index
    else PressAll(Press(index, count, arrows[0]), count, arrows[1..])
  }

  /** From a valid position, any sequence of presses keeps the cursor on a
      result. */
  lemma {:induction false} PressAllStaysInRange(index: int, count: nat, arrows: seq<Arrow>)
    requires 0 <= index < count
    ensures 0 <= PressAll(index, count, arrows) < count
    decreases |arrows|
  {
    if arrows != [] {
      PressAllStaysInRange(Press(index, count, arrows[0]), count, arrows[1..]);
    }
  }

  /** With at most one result there are no arrows, so the cursor never moves. */
  lemma {:induction false} NoArrowsNoMoves(index: int, count: nat, arrows: seq<Arrow>)
    requires count <= 1
    ensures PressAll(index, count, arrows) == index
    decreases |arrows|
  {
    if arrows != [] {
      NoArrowsNoMoves(Press(index, count, arrows[0]), count, arrows[1..]);
    }
  }

  /** "Next" then "previous" returns to where the cursor was, when "next" was enabled. */
  lemma NextThenPrevious(index: int, count: nat)
    requires 0 <= index < count && Enabled(index, count, Next)
    ensures Press(Press(index, count, Next), count, Previous) == index
  {
  }

  /** The argument each restart button passes to onRestart: a full reset only
      for "back to home". */
  function RestartArgument(button: RestartButton): (fullReset: bool)
    ensures fullReset <==> button == BackToHome
  {
    match button
    case BackToHome => true
    case ChangeTemplate => false
  }

  /** The name the download is saved under: the prefix, the result's id, the
      extension; the id can be read back from it. */
  function DownloadFilename(photo: GeneratedPhoto): (name: string)
    ensures |name| == |photo.id| + 15
    ensures name[..11] == "baby_photo_" && name[|name| - 4..] == ".jpg"
    ensures name[11..|name| - 4] == photo.id
  {
    "baby_photo_" + photo.id + ".jpg"
  }

  class ResultStep {
    const results: seq<GeneratedPhoto>
    var currentIndex: int

    /** The cursor names a result, or is 0 when there is none. */
    ghost predicate Valid()
      reads this
    {
      if |results| == 0 then currentIndex == 0 else 0 <= currentIndex < |results|
    }

    constructor (results: seq<GeneratedPhoto>)
      ensures this.results == results && currentIndex == 0 && Valid()
    {
      this.results := results;
      currentIndex := 0;
    }

    /** The "previous" arrow: moves back by one when it is enabled. */
    method PressPrevious()
      requires Valid()
      modifies this
      ensures Valid()
      ensures currentIndex == Press(old(currentIndex), |results|, Previous)
    {
      if Enabled(currentIndex, |results|, Previous) {
        currentIndex := currentIndex - 1;
      }
    }

    /** The "next" arrow: moves on by one when it is enabled. */
    method PressNext()
      requires Valid()
      modifies this
      ensures Valid()
      ensures currentIndex == Press(old(currentIndex), |results|, Next)
    {
      if Enabled(currentIndex, |results|, Next) {
        currentIndex := currentIndex + 1;
      }
    }

    /** The photo on display: there is one exactly when the list is non-empty,
        and it is the result under the cursor. */
    function CurrentPhoto(): (r: Option<GeneratedPhoto>)
      requires Valid()
      reads this
      ensures r.Some? <==> |results| > 0
      ensures r.Some? ==> r.value == results[currentIndex] && r.value in results
    {
      if |results| > 0 then Some(results[currentIndex]) else None
    }

    /** The "position / total" counter in the header: one-based, and within
        the total whenever there is a result. */
    function Position(): (pos: (int, nat))
      requires Valid()
      reads this
      ensures pos.1 == |results| && pos.0 == currentIndex + 1
      ensures |results| > 0 ==> 1 <= pos.0 <= pos.1
      ensures |results| == 0 ==> pos.0 == 1
    {
      (currentIndex + 1, |results|)
    }
  }
}
