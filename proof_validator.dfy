/** Proof validation (proof/validator.go): data-URL prefix stripping, the
    photo time window with a one-day buffer on each side, the Valid/Errors
    bookkeeping, and steps proofs. Base64 decoding, SHA-256 (as hex) and the
    EXIF reader are functions passed in; times are Unix seconds. */
module ProofValidator {
  import opened Wrappers
  import opened Text

  /** One day, the buffer allowed on either side of the challenge period. */
  const DayBuffer := 86400

  /** The entries of `Errors` (validator.go words them in Korean and adds
      the capture date) and of `Warnings`. */
  datatype Issue = TakenBeforeStart(takenAt: int) | TakenAfterEnd(takenAt: int)
  datatype Warning = ExifUnreadable

  datatype ValidationResult = ValidationResult(valid: bool, imageHash: string, takenAt: Option<int>,
                                               errors: seq<Issue>, warnings: seq<Warning>)

  datatype ProofError = InvalidBase64 | EmptyImage | StepsHashRequired

  /** What the EXIF reader reports: a capture time, or None when the data
      cannot be read or holds no date. */
  datatype Tools = Tools(decode: string -> Option<Bytes>, sha256Hex: Bytes -> string,
                         photoTime: Bytes -> Option<int>)

  /** Everything after the first comma, or the whole text when there is no
      comma. */
  function StripDataUrlPrefix(s: string): (r: string)
    ensures ',' !in s ==> r == s
    ensures ',' in s ==> |r| < |s| && s == s[..|s| - |r| - 1] + [','] + r && ',' !in s[..|s| - |r| - 1]
  {
    var idx := IndexOf(s, ',');
    if idx == -1 then s
    else
      assert s == s[..idx] + [','] + s[idx + 1..];
      s[idx + 1..]
  }

  /** A data URL loses its header: "data:<type>;base64,<data>" becomes
      "<data>", whatever the data is. */
  lemma StripDataUrl(header: string, data: string)
    requires ',' !in header
    ensures StripDataUrlPrefix(header + "," + data) == data
  {
    var s := header + "," + data;
    var r := StripDataUrlPrefix(s);
    assert s[|header|] == ',';
    assert ',' in s;
    assert s[..|header|] == header;
    assert s[|header| + 1..] == data;
  }

  /** The errors a capture time gives: before the buffered start, after
      the buffered end (both, for a window shorter than no time at all). */
  function WindowIssues(takenAt: int, challengeStart: int, challengeEnd: int): seq<Issue> {
    (if takenAt < challengeStart - DayBuffer then [TakenBeforeStart(takenAt)] else [])
    + (if takenAt > challengeEnd + DayBuffer then [TakenAfterEnd(takenAt)] else [])
  }

  /** The outcome of `ValidatePhotoProof`. */
  function PhotoValidation(tools: Tools, imageBase64: string, challengeStart: int, challengeEnd: int)
    : Result<ValidationResult, ProofError>
  {
    match tools.decode(StripDataUrlPrefix(imageBase64))
    case None => Err(InvalidBase64)
    case Some(decoded) =>
      if |decoded| == 0 then Err(EmptyImage)
      else
        var hash := tools.sha256Hex(decoded);
        match tools.photoTime(decoded)
        case None => Ok(ValidationResult(true, hash, None, [], [ExifUnreadable]))
        case Some(t) =>
          var issues := WindowIssues(t, challengeStart, challengeEnd);
          Ok(ValidationResult(issues == [], hash, Some(t), issues, []))
  }

  /** `ValidatePhotoProof`, building the result step by step. */
  method ValidatePhotoProof(tools: Tools, imageBase64: string, challengeStart: int, challengeEnd: int)
    returns (r: Result<ValidationResult, ProofError>)
    ensures r == PhotoValidation(tools, imageBase64, challengeStart, challengeEnd)
    ensures r.Ok? ==> r.value.valid == (r.value.errors == [])
  {
    var result := ValidationResult(true, "", None, [], []);
    var imageData := imageBase64;
    var idx := IndexOf(imageBase64, ',');
    if idx != -1 {
      imageData := imageBase64[idx + 1..];
    }
    assert imageData == StripDataUrlPrefix(imageBase64);
    var decoded := tools.decode(imageData);
    if decoded.None? {
      return Err(InvalidBase64);
    }
    if |decoded.value| == 0 {
      return Err(EmptyImage);
    }
    result := result.(imageHash := tools.sha256Hex(decoded.value));
    var takenAt := tools.photoTime(decoded.value);
    if takenAt.None? {
      result := result.(warnings := result.warnings + [ExifUnreadable]);
      assert result.warnings == [ExifUnreadable];
    } else {
      var t := takenAt.value;
      ghost var issues := WindowIssues(t, challengeStart, challengeEnd);
      result := result.(takenAt := takenAt);
      if t < challengeStart - DayBuffer {
        result := result.(valid := false, errors := result.errors + [TakenBeforeStart(t)]);
      }
      if t > challengeEnd + DayBuffer {
        result := result.(valid := false, errors := result.errors + [TakenAfterEnd(t)]);
      }
      assert result.errors == issues && result.valid == (issues == []);
    }
    return Ok(result);
  }

  /** Undecodable or empty image data gives an error and no result. */
  lemma PhotoRejectsBadData(tools: Tools, imageBase64: string, challengeStart: int, challengeEnd: int)
    ensures var d := tools.decode(StripDataUrlPrefix(imageBase64));
      PhotoValidation(tools, imageBase64, challengeStart, challengeEnd).Err? <==> d.None? || d.value == []
  {
  }

  /** A photo with a capture time is valid exactly when it was taken within
      a day of the challenge period, and then it carries no error. */
  lemma PhotoWindow(tools: Tools, imageBase64: string, challengeStart: int, challengeEnd: int)
    requires var d := tools.decode(StripDataUrlPrefix(imageBase64));
      d.Some? && d.value != [] && tools.photoTime(d.value).Some?
    ensures var r := PhotoValidation(tools, imageBase64, challengeStart, challengeEnd);
      var t := tools.photoTime(tools.decode(StripDataUrlPrefix(imageBase64)).value).value;
      && r.Ok? && r.value.takenAt == Some(t)
      && (r.value.valid <==> challengeStart - DayBuffer <= t <= challengeEnd + DayBuffer)
      && r.value.valid == (r.value.errors == [])
  {
  }

  /** Without a readable capture time the photo stays valid, with a
      warning only. */
  lemma PhotoWithoutExif(tools: Tools, imageBase64: string, challengeStart: int, challengeEnd: int)
    requires var d := tools.decode(StripDataUrlPrefix(imageBase64));
      d.Some? && d.value != [] && tools.photoTime(d.value).None?
    ensures var r := PhotoValidation(tools, imageBase64, challengeStart, challengeEnd);
      r.Ok? && r.value.valid && r.value.errors == [] && r.value.warnings == [ExifUnreadable]
  {
  }

  /** Every result has Valid exactly when it has no errors, and the hash of
      the decoded image. */
  lemma PhotoResultConsistent(tools: Tools, imageBase64: string, challengeStart: int, challengeEnd: int)
    ensures var r := PhotoValidation(tools, imageBase64, challengeStart, challengeEnd);
      r.Ok? ==> && r.value.valid == (r.value.errors == [])
                && Ok(r.value.imageHash) == HashBase64Image(tools, imageBase64)
  {
  }

  /** `HashBase64Image`: the hash of the decoded data (empty data is not
      refused here). */
  function HashBase64Image(tools: Tools, imageBase64: string): (r: Result<string, ProofError>)
    ensures r.Err? <==> tools.decode(StripDataUrlPrefix(imageBase64)).None?
  {
    match tools.decode(StripDataUrlPrefix(imageBase64))
    case None => Err(InvalidBase64)
    case Some(decoded) => Ok(tools.sha256Hex(decoded))
  }

  /** `ValidateStepsProof`: the client's hash is taken as it is, unless it
      is blank. */
  function ValidateStepsProof(stepsHash: string): (r: Result<ValidationResult, ProofError>)
    ensures AllSpace(stepsHash) <==> r.Err?
    ensures r.Ok? ==> r.value.valid && r.value.imageHash == stepsHash && r.value.errors == []
                      && r.value.warnings == [] && r.value.takenAt.None?
  {
    if TrimSpace(stepsHash) == "" then Err(StepsHashRequired)
    else Ok(ValidationResult(true, stepsHash, None, [], []))
  }
}
