/** `VideoMonitor` from both `video_utils.py` copies: the capture state
    (`cap`, `previous_frame`, `last_processed_time`), the frame-rate limiter
    and the change decision. OpenCV is not modelled: a frame read, the contour
    areas found in it and the JPEG encoding are inputs. */
module VideoUtils {
  import opened Wrappers
  import opened GenAi

  /** A frame delivered by the camera (an image array in the source). */
  datatype Frame = Frame(id: nat)

  /** An OpenCV capture object; `isOpen` is what `cap.isOpened()` reports. */
  datatype Capture = Capture(isOpen: bool)

  /** The `(changed, description, frame_bytes)` triple. */
  datatype ChangeResult = ChangeResult(changed: bool, description: string, frameBytes: Option<Bytes>)

  /** What the world supplies to one `process_frame_for_changes` call: the
      clock, the outcome of `cap.read()`, the contour areas OpenCV finds in
      the foreground mask, and the outcome of `cv2.imencode`. */
  datatype Sensor = Sensor(now: real, read: Option<Frame>, contourAreas: seq<real>, encoded: Option<Bytes>)

  const NoFrame := "No frame"
  const SignificantMotion := "Significant motion detected in the scene."
  const NoSignificantChange := "No significant change detected."
  const FrameSkipped := "FPS limit, frame skipped"
  const FailedToGetFrame := "Failed to get frame"

  /** Default `min_contour_area` of `detect_significant_change`. */
  const DefaultMinContourArea: real := 500.0

  /** `VIDEO_FPS` of streaming-test's `config.py`. */
  const StreamingTestVideoFps: real := 10.0

  /** The `VIDEO_FPS` streaming-test2 falls back to when `app.config` cannot
      be imported. */
  const FallbackVideoFps: real := 1.0

  /** `fps_limit if fps_limit is not None else VIDEO_FPS` (streaming-test2). */
  function FpsLimitUnlessNone(fpsLimit: Option<real>, videoFps: real): real {
    if fpsLimit.Some? then fpsLimit.value else videoFps
  }

  /** `fps_limit if fps_limit else VIDEO_FPS` (streaming-test). */
  function FpsLimitUnlessFalsy(fpsLimit: Option<real>, videoFps: real): real {
    if fpsLimit.Some? && fpsLimit.value != 0.0 then fpsLimit.value else videoFps
  }

  /** The two defaults disagree only on an explicit `0`: streaming-test2 keeps
      it (and then never skips a frame), streaming-test replaces it. */
  lemma FpsDefaultsDifferOnZero(fpsLimit: Option<real>, videoFps: real, last: real, now: real)
    ensures FpsLimitUnlessNone(fpsLimit, videoFps) != FpsLimitUnlessFalsy(fpsLimit, videoFps)
            <==> fpsLimit == Some(0.0) && videoFps != 0.0
    ensures fpsLimit == Some(0.0) ==> !RateLimited(FpsLimitUnlessNone(fpsLimit, videoFps), last, now)
  {
  }

  /** `self.fps_limit and (current_time - self.last_processed_time) < (1.0 / self.fps_limit)` */
  predicate RateLimited(fpsLimit: real, last: real, now: real) {
    fpsLimit != 0.0 && now - last < 1.0 / fpsLimit
  }

  /** `any(area > min_contour_area for area in areas)` */
  function AnyAreaAbove(areas: seq<real>, minArea: real): bool {
    |areas| > 0 && (areas[0] > minArea || AnyAreaAbove(areas[1..], minArea))
  }

  lemma {:induction false} AnyAreaAboveIff(areas: seq<real>, minArea: real)
    ensures AnyAreaAbove(areas, minArea) <==> exists i :: 0 <= i < |areas| && areas[i] > minArea
  {
    if |areas| > 0 {
      AnyAreaAboveIff(areas[1..], minArea);
      if exists i :: 0 <= i < |areas| && areas[i] > minArea {
        var i :| 0 <= i < |areas| && areas[i] > minArea;
        if i > 0 { assert areas[1..][i - 1] > minArea; }
      }
      if AnyAreaAbove(areas[1..], minArea) && areas[0] <= minArea {
        var i :| 0 <= i < |areas[1..]| && areas[1..][i] > minArea;
        assert areas[i + 1] > minArea;
      }
    }
  }

  /** The decision `detect_significant_change` makes. */
  function Detection(frame: Option<Frame>, areas: seq<real>, encoded: Option<Bytes>, minArea: real): (r: ChangeResult)
    ensures r.changed <==> frame.Some? && exists i :: 0 <= i < |areas| && areas[i] > minArea
    ensures r.changed ==> r.description == SignificantMotion && r.frameBytes == encoded
    ensures !r.changed ==> r.frameBytes.None?
    ensures !r.changed ==> r.description == if frame.None? then NoFrame else NoSignificantChange
  {
    AnyAreaAboveIff(areas, minArea);
    if frame.None? then ChangeResult(false, NoFrame, None)
    else if AnyAreaAbove(areas, minArea) then ChangeResult(true, SignificantMotion, encoded)
    else ChangeResult(false, NoSignificantChange, None)
  }

  /** The triple `process_frame_for_changes` returns, given the limiter
      state, whether a capture is open, and what the world supplies. */
  function FrameOutcome(fpsLimit: real, last: real, capturing: bool, s: Sensor): (r: ChangeResult)
    ensures RateLimited(fpsLimit, last, s.now) ==> r == ChangeResult(false, FrameSkipped, None)
    ensures !RateLimited(fpsLimit, last, s.now) && !(capturing && s.read.Some?)
            ==> r == ChangeResult(false, FailedToGetFrame, None)
    ensures !RateLimited(fpsLimit, last, s.now) && capturing && s.read.Some?
            ==> r == Detection(s.read, s.contourAreas, s.encoded, DefaultMinContourArea)
    ensures r.frameBytes.Some? ==> r.changed && r.frameBytes == s.encoded
    ensures r.changed <==> && !RateLimited(fpsLimit, last, s.now) && capturing && s.read.Some?
                           && exists i :: 0 <= i < |s.contourAreas| && s.contourAreas[i] > DefaultMinContourArea
  {
    if RateLimited(fpsLimit, last, s.now) then ChangeResult(false, FrameSkipped, None)
    else if !(capturing && s.read.Some?) then ChangeResult(false, FailedToGetFrame, None)
    else Detection(s.read, s.contourAreas, s.encoded, DefaultMinContourArea)
  }

  /** A call that passes the limiter at time `now` becomes the new reference
      time; one that is skipped leaves it. */
  function NextProcessedTime(fpsLimit: real, last: real, now: real): real {
    if RateLimited(fpsLimit, last, now) then last else now
  }

  /** The calls, out of a run of calls at times `times`, whose frames are
      read and examined. */
  function ProcessedTimes(fpsLimit: real, last: real, times: seq<real>): seq<real>
    decreases |times|
  {
    if |times| == 0 then []
    else if RateLimited(fpsLimit, last, times[0]) then ProcessedTimes(fpsLimit, last, times[1..])
    else [times[0]] + ProcessedTimes(fpsLimit, times[0], times[1..])
  }

  /** With a positive limit, examined frames are at least `1 / fps_limit`
      seconds apart, and the first one at least that long after the last
      processed time; each of them is one of the calls. */
  lemma {:induction false} ProcessedTimesSpaced(fpsLimit: real, last: real, times: seq<real>)
    requires fpsLimit > 0.0
    ensures var p := ProcessedTimes(fpsLimit, last, times);
      && (forall k :: 0 <= k < |p| ==> p[k] in times)
      && (|p| > 0 ==> p[0] - last >= 1.0 / fpsLimit)
      && (forall k :: 0 < k < |p| ==> p[k] - p[k - 1] >= 1.0 / fpsLimit)
    decreases |times|
  {
    if |times| > 0 {
      var p := ProcessedTimes(fpsLimit, last, times);
      if RateLimited(fpsLimit, last, times[0]) {
        ProcessedTimesSpaced(fpsLimit, last, times[1..]);
        forall k | 0 <= k < |p| ensures p[k] in times {
          assert p[k] in times[1..];
        }
      } else {
        var rest := ProcessedTimes(fpsLimit, times[0], times[1..]);
        ProcessedTimesSpaced(fpsLimit, times[0], times[1..]);
        assert p == [times[0]] + rest;
        forall k | 0 < k < |p| ensures p[k] - p[k - 1] >= 1.0 / fpsLimit && p[k] in times {
          assert p[k] == rest[k - 1];
          assert rest[k - 1] in times[1..];
        }
      }
    }
  }

  /** With the limiter off (`fps_limit == 0`) every call is examined. */
  lemma {:induction false} NoLimitProcessesAll(last: real, times: seq<real>)
    ensures ProcessedTimes(0.0, last, times) == times
    decreases |times|
  {
    if |times| > 0 {
      NoLimitProcessesAll(times[0], times[1..]);
    }
  }

  class VideoMonitor {
    const cameraIndex: int
    const fpsLimit: real
    var cap: Option<Capture>
    var previousFrame: Option<Frame>
    var lastProcessedTime: real

    /** `__init__` of streaming-test2: `VIDEO_FPS` replaces only `None`. */
    constructor UnlessNone(cameraIndex: int, fpsLimit: Option<real>, videoFps: real)
      ensures this.cameraIndex == cameraIndex
      ensures this.fpsLimit == FpsLimitUnlessNone(fpsLimit, videoFps)
      ensures cap.None? && previousFrame.None? && lastProcessedTime == 0.0
    {
      this.cameraIndex := cameraIndex;
      this.fpsLimit := if fpsLimit.Some? then fpsLimit.value else videoFps;
      cap := None;
      previousFrame := None;
      lastProcessedTime := 0.0;
    }

    /** `__init__` of streaming-test: `VIDEO_FPS` replaces any falsy value. */
    constructor UnlessFalsy(cameraIndex: int, fpsLimit: Option<real>, videoFps: real)
      ensures this.cameraIndex == cameraIndex
      ensures this.fpsLimit == FpsLimitUnlessFalsy(fpsLimit, videoFps)
      ensures cap.None? && previousFrame.None? && lastProcessedTime == 0.0
    {
      this.cameraIndex := cameraIndex;
      this.fpsLimit := if fpsLimit.Some? && fpsLimit.value != 0.0 then fpsLimit.value else videoFps;
      cap := None;
      previousFrame := None;
      lastProcessedTime := 0.0;
    }

    /** `self.cap and self.cap.isOpened()` */
    predicate Capturing()
      reads this
    {
      cap.Some? && cap.value.isOpen
    }

    /** `start_capture`; `opens` is whether `cv2.VideoCapture(index)` opened. */
    method StartCapture(opens: bool) returns (ok: bool)
      modifies this`cap, this`previousFrame
      ensures ok == opens
      ensures ok ==> cap == Some(Capture(true)) && previousFrame.None?
      ensures !ok ==> cap.None? && previousFrame == old(previousFrame)
    {
      cap := Some(Capture(opens));
      if !opens {
        cap := None;
        return false;
      }
      previousFrame := None;
      return true;
    }

    /** `stop_capture` */
    method StopCapture()
      modifies this`cap, this`previousFrame
      ensures cap.None? && previousFrame.None?
    {
      if cap.Some? {
        cap := None;
      }
      previousFrame := None;
    }

    /** `get_frame`; `read` is the outcome of `cap.read()`. */
    method GetFrame(read: Option<Frame>) returns (frame: Option<Frame>)
      ensures frame.Some? <==> Capturing() && read.Some?
      ensures frame.Some? ==> frame == read
    {
      if cap.None? || !cap.value.isOpen {
        return None;
      }
      if read.None? {
        return None;
      }
      return read;
    }

    /** `detect_significant_change(frame, min_contour_area=minArea)`: scans the
        contours until one is larger than `minArea`. */
    method DetectSignificantChange(frame: Option<Frame>, areas: seq<real>, encoded: Option<Bytes>, minArea: real)
      returns (r: ChangeResult)
      ensures r == Detection(frame, areas, encoded, minArea)
    {
      if frame.None? {
        return ChangeResult(false, NoFrame, None);
      }
      var significant := false;
      for i := 0 to |areas|
        invariant !significant
        invariant forall j :: 0 <= j < i ==> areas[j] <= minArea
      {
        if areas[i] > minArea {
          significant := true;
          break;
        }
      }
      if significant {
        if encoded.Some? {
          return ChangeResult(true, SignificantMotion, encoded);
        }
        return ChangeResult(true, SignificantMotion, None);
      }
      return ChangeResult(false, NoSignificantChange, None);
    }

    /** `process_frame_for_changes`: the limiter, then a read, then the
        change decision with the default minimum contour area. */
    method ProcessFrameForChanges(s: Sensor) returns (r: ChangeResult)
      modifies this`lastProcessedTime
      ensures lastProcessedTime == NextProcessedTime(fpsLimit, old(lastProcessedTime), s.now)
      ensures r == FrameOutcome(fpsLimit, old(lastProcessedTime), Capturing(), s)
    {
      if fpsLimit != 0.0 && s.now - lastProcessedTime < 1.0 / fpsLimit {
        return ChangeResult(false, FrameSkipped, None);
      }
      lastProcessedTime := s.now;
      var frame := GetFrame(s.read);
      if frame.None? {
        return ChangeResult(false, FailedToGetFrame, None);
      }
      r := DetectSignificantChange(frame, s.contourAreas, s.encoded, DefaultMinContourArea);
    }
  }
}
