/** The still camera: the preview flag and widget, and the numbered image
    files that capture_image writes. */
module Camera {
  import opened Common

  /** str.lower() on one character; only the ASCII letters are folded. */
  function Lower(c: char): (d: char)
    ensures 'A' <= c <= 'Z' ==> d as int == c as int + 32
    ensures !('A' <= c <= 'Z') ==> d == c
    ensures !('A' <= d <= 'Z')
  {
    if 'A' <= c <= 'Z' then (c as int + 32) as char else c
  }

  /** The category as it appears in a file name: every space becomes '_' and
      the result is lower-cased. */
  function Sanitize(category: string): (s: string)
    ensures |s| == |category|
    ensures forall i :: 0 <= i < |s| ==> s[i] == if category[i] == ' ' then '_' else Lower(category[i])
  {
    if category == [] then []
    else
      var n := |category|;
      var c := category[n - 1];
      Sanitize(category[..n - 1]) + [if c == ' ' then '_' else Lower(c)]
  }

  /** A sanitized category has no spaces and no upper-case letters, and
      sanitizing it again changes nothing. */
  lemma SanitizeIdempotent(category: string)
    ensures forall i :: 0 <= i < |Sanitize(category)| ==>
      Sanitize(category)[i] != ' ' && !('A' <= Sanitize(category)[i] <= 'Z')
    ensures Sanitize(Sanitize(category)) == Sanitize(category)
  {
  }

  const DefaultCategory: string := "general"

  /** Images/img_{image_counter}_{date}_{time}_{category}.jpg */
  function ImageName(counter: nat, at: Moment, category: string): Path
  {
    "Images/img_" + DecimalString(counter) + "_" + at.date + "_" + at.time + "_" + Sanitize(category) + ".jpg"
  }

  /** An image name is a .jpg file in Images/. */
  lemma ImageNameIsImage(counter: nat, at: Moment, category: string)
    ensures var p := ImageName(counter, at, category); InFolder(p, "Images/") && HasExtension(p, ".jpg")
  {
  }

  /** The counter is the first field after "img_" and has no '_' of its own,
      so images with different counters never share a file name, whatever
      their times and categories. */
  lemma ImageNamesDistinct(m: nat, n: nat, at: Moment, at': Moment, category: string, category': string)
    requires m != n
    ensures ImageName(m, at, category) != ImageName(n, at', category')
  {
    var a, b := DecimalString(m), DecimalString(n);
    var x, y := ImageName(m, at, category), ImageName(n, at', category');
    var k := |"Images/img_"|;
    if x == y {
      assert x[k..k + |a|] == a && x[k + |a|] == '_';
      assert y[k..k + |b|] == b && y[k + |b|] == '_';
      assert |a| == |b|;
      assert a == b;
      DecimalInjective(m, n);
    }
  }

  /** The Qt widget that shows the preview. */
  class PreviewWidget {
    constructor ()
    {
    }
  }

  class Camera {
    var previewWidget: PreviewWidget?
    var previewStarted: bool
    var imageCounter: nat

    ghost predicate Valid()
      reads this
    {
      imageCounter >= 1 && (previewStarted ==> previewWidget != null)
    }

    constructor ()
      ensures Valid()
      ensures previewWidget == null && !previewStarted && imageCounter == 1
    {
      previewWidget := null;
      previewStarted := false;
      imageCounter := 1;
    }

    /** start_preview: while the preview runs it returns the widget it already
        has and configures nothing; otherwise it makes a new widget, starts the
        camera and sets the flag. */
    method StartPreview() returns (widget: PreviewWidget)
      requires Valid()
      modifies this`previewWidget, this`previewStarted
      ensures Valid() && previewStarted && previewWidget == widget
      ensures old(previewStarted) ==> widget == old(previewWidget)
      ensures !old(previewStarted) ==> fresh(widget)
    {
      if previewStarted {
        return previewWidget;
      }
      widget := new PreviewWidget();
      previewWidget := widget;
      previewStarted := true;
    }

    /** stop_preview: stops the camera only while the preview runs, and
        clears the flag; the widget is kept. */
    method StopPreview()
      requires Valid()
      modifies this`previewStarted
      ensures Valid() && !previewStarted
    {
      if previewStarted {
        previewStarted := false;
      }
    }

    /** capture_image: the file name uses the counter before the capture and
        the sanitized category; a capture that fails raises and leaves the
        counter alone, one that succeeds returns the name and counts it.
        `captured` is whether the camera took the picture. */
    method CaptureImage(at: Moment, captured: bool, category: string := DefaultCategory) returns (r: Result<Path>)
      requires Valid()
      modifies this`imageCounter
      ensures Valid()
      ensures r.Ok? <==> captured
      ensures captured ==> r.value == ImageName(old(imageCounter), at, category) && imageCounter == old(imageCounter) + 1
      ensures !captured ==> r.error == CaptureFailed && imageCounter == old(imageCounter)
    {
      var filename := ImageName(imageCounter, at, category);
      if !captured {
        return Err(CaptureFailed);
      }
      imageCounter := imageCounter + 1;
      return Ok(filename);
    }
  }
}
