/** The scale fallback around `_capture` in the site loop: try the device pixel ratio,
    then 2, then 1; the first attempt that does not throw decides the capture data,
    even when it returns null. */
module RetryPolicy {
  import opened Wrappers
  import opened CaptureEngine

  /** A loaded page as the capture attempts see it. `docAt(k)` is the document the k-th
      attempt measures: each earlier attempt threw after appending its canvas to the body,
      and a canvas is never removed on that path, so the document may differ from attempt
      to attempt. `drawAt(k)` is the renderer as the k-th attempt meets it: a retry draws
      the window again on that changed document, so it may succeed where an earlier
      attempt with the same rectangle and scale threw, or render something else. */
  datatype Page = Page(docAt: nat -> Document, drawAt: nat -> Draw)

  /** The scales the cascade tries, in order. */
  function Tiers(dpr: real): seq<real>
  {
    [dpr, 2.0, 1.0]
  }

  predicate StrictlyDescending(s: seq<real>)
  {
    forall i, j :: 0 <= i < j < |s| ==> s[i] > s[j]
  }

  /** The fixed tiers step down at every retry only on a screen denser than 2:
      with a ratio of 2 or less the "lower" retry at 2 is not lower. */
  lemma TiersDescendingIff(dpr: real)
    ensures StrictlyDescending(Tiers(dpr)) <==> dpr > 2.0
  {
    if StrictlyDescending(Tiers(dpr)) {
      assert Tiers(dpr)[0] > Tiers(dpr)[1];
    }
  }

  /** The scales that were attempted and the capture data that came out of them. */
  datatype Fallback = Fallback(tried: seq<real>, data: Option<CaptureData>)

  /** The attempt at position `k` of `tiers`, made on a document that carries the
      canvases of the `strays + k` attempts before it. */
  function AttemptAt(page: Page, mode: string, format: string, tiers: seq<real>, strays: nat, k: nat): Outcome
    requires k < |tiers|
  {
    Capture(page.docAt(strays + k), page.drawAt(strays + k), mode, format, tiers[k])
  }

  /** The nested try/catch blocks as a policy over a list of scales. `strays` counts the
      canvases left in the body by the attempts already made. */
  function Cascade(page: Page, mode: string, format: string, tiers: seq<real>, strays: nat): (r: Fallback)
    // the scales tried are a prefix of the tiers, and there is at least one attempt if there is any tier
    ensures |r.tried| <= |tiers| && r.tried == tiers[..|r.tried|]
    ensures tiers != [] ==> r.tried != []
    // whatever is produced has a type its extension agrees with, derived from the requested format
    ensures r.data.Some? ==>
      MimeOf(r.data.value.extension) == Some(r.data.value.dataType) &&
      (r.data.value.dataType == format <==> KnownFormat(format))
    decreases |tiers|
  {
    if tiers == [] then Fallback([], None)
    else
      match Capture(page.docAt(strays), page.drawAt(strays), mode, format, tiers[0])
      case Threw =>
        var rest := Cascade(page, mode, format, tiers[1..], strays + 1);
        Fallback([tiers[0]] + rest.tried, rest.data)
      case Null => Fallback([tiers[0]], None)
      case Captured(d) => Fallback([tiers[0]], Some(d))
  }

  /** The first attempt that does not throw decides: every attempt before the last one
      threw, the cascade stops early only at an attempt that did not throw, and there is
      data exactly when the last attempt captured, and then it is that attempt's data. */
  lemma {:induction false} FirstNonThrowingDecides(page: Page, mode: string, format: string, tiers: seq<real>, strays: nat)
    requires tiers != []
    ensures var r := Cascade(page, mode, format, tiers, strays);
            var n := |r.tried|;
            && 0 < n <= |tiers|
            && (forall k :: 0 <= k < n - 1 ==> AttemptAt(page, mode, format, tiers, strays, k).Threw?)
            && (n < |tiers| ==> !AttemptAt(page, mode, format, tiers, strays, n - 1).Threw?)
            && (r.data.Some? <==> AttemptAt(page, mode, format, tiers, strays, n - 1).Captured?)
            && (r.data.Some? ==> r.data.value == AttemptAt(page, mode, format, tiers, strays, n - 1).data)
  {
    var r := Cascade(page, mode, format, tiers, strays);
    var first := Capture(page.docAt(strays), page.drawAt(strays), mode, format, tiers[0]);
    assert first == AttemptAt(page, mode, format, tiers, strays, 0);
    if first.Threw? && |tiers| > 1 {
      var rest := Cascade(page, mode, format, tiers[1..], strays + 1);
      FirstNonThrowingDecides(page, mode, format, tiers[1..], strays + 1);
      assert r.tried == [tiers[0]] + rest.tried;
      forall k | 0 < k < |tiers|
        ensures AttemptAt(page, mode, format, tiers, strays, k)
             == AttemptAt(page, mode, format, tiers[1..], strays + 1, k - 1)
      {
        assert strays + k == strays + 1 + (k - 1);
      }
    }
  }

  /** The cascade of the site loop. */
  function CaptureWithFallback(page: Page, mode: string, format: string, dpr: real): Fallback
  {
    Cascade(page, mode, format, Tiers(dpr), 0)
  }

  /** Scales are attempted in the order dpr, 2, 1 and never more than these three. */
  lemma ScalesInOrder(page: Page, mode: string, format: string, dpr: real)
    ensures var tried := CaptureWithFallback(page, mode, format, dpr).tried;
            tried in [[dpr], [dpr, 2.0], [dpr, 2.0, 1.0]]
  {
    var tried := CaptureWithFallback(page, mode, format, dpr).tried;
    assert 0 < |tried| <= 3 && tried == Tiers(dpr)[..|tried|];
    if |tried| == 1 {
      assert tried == [dpr];
    } else if |tried| == 2 {
      assert tried == [dpr, 2.0];
    } else {
      assert tried == [dpr, 2.0, 1.0];
    }
  }

  /** A null result (no body, or an unknown area mode) at the first scale ends the
      cascade: one attempt, no data, no retry. */
  lemma NullStopsCascade(page: Page, mode: string, format: string, dpr: real)
    requires !page.docAt(0).hasBody || !KnownArea(mode)
    ensures CaptureWithFallback(page, mode, format, dpr) == Fallback([dpr], None)
  {
  }

  /** When every scale throws, all three are tried and there is no capture data. */
  lemma AllThrowNoData(page: Page, mode: string, format: string, dpr: real)
    requires forall k :: 0 <= k < 3 ==> AttemptAt(page, mode, format, Tiers(dpr), 0, k).Threw?
    ensures CaptureWithFallback(page, mode, format, dpr) == Fallback([dpr, 2.0, 1.0], None)
  {
    FirstNonThrowingDecides(page, mode, format, Tiers(dpr), 0);
    var r := CaptureWithFallback(page, mode, format, dpr);
    assert |r.tried| == 3;
  }

  /** When the two higher scales throw and scale 1 captures, the data has the size of the
      rectangle at scale 1, measured on the document the third attempt sees. */
  lemma ScaleOneFallback(page: Page, format: string, dpr: real)
    requires AttemptAt(page, Entire, format, Tiers(dpr), 0, 0).Threw?
    requires AttemptAt(page, Entire, format, Tiers(dpr), 0, 1).Threw?
    requires AttemptAt(page, Entire, format, Tiers(dpr), 0, 2).Captured?
    ensures var r := CaptureWithFallback(page, Entire, format, dpr);
            && r.tried == [dpr, 2.0, 1.0]
            && r.data.Some?
            && r.data.value.width == page.docAt(2).scrollWidth as real
            && r.data.value.height == page.docAt(2).scrollHeight as real
  {
    FirstNonThrowingDecides(page, Entire, format, Tiers(dpr), 0);
    var r := CaptureWithFallback(page, Entire, format, dpr);
    assert |r.tried| == 3;
  }

  /** Each attempt draws again: at dpr 2 the retry has the same rectangle and scale as the
      first attempt, yet it captures on a renderer that threw only the first time. */
  lemma RetryRedraws(doc: Document, format: string, url: string)
    requires doc.hasBody
    ensures var page := Page(k => doc, k => (rect: Rect, scale: real, mime: string) =>
                                            if k == 0 then DrawThrew else Encoded(url));
            var r := CaptureWithFallback(page, Entire, format, 2.0);
            && r.tried == [2.0, 2.0]
            && r.data.Some? && r.data.value.dataURL == url
  {
    var page := Page(k => doc, k => (rect: Rect, scale: real, mime: string) =>
                                    if k == 0 then DrawThrew else Encoded(url));
    assert AttemptAt(page, Entire, format, Tiers(2.0), 0, 0).Threw?;
    assert AttemptAt(page, Entire, format, Tiers(2.0), 0, 1).Captured?;
    FirstNonThrowingDecides(page, Entire, format, Tiers(2.0), 0);
  }
}
