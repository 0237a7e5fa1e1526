/**
 * The image upload dialog: the user either chooses files or types a URL, picks
 * whether the image becomes the background or a new object, and uploads.
 * A chosen file is represented by the data URL its `FileReader` produces.
 */
module FileUpload {

  import opened Wrappers

  datatype UploadType = Background | Object

  datatype ImportType = FileImport | UrlImport

  /** A call of `handleSetImageBackground` or `handleAddImageObject` with an image URL. */
  datatype Dispatch = SetBackground(url: string) | AddImageObject(url: string)

  /** Which handler an upload goes to: the background one for `background`, the add-object one otherwise. */
  function DispatchFor(uploadType: UploadType, url: string): (d: Dispatch)
    ensures d.url == url && (d.SetBackground? <==> uploadType == Background)
  {
    if uploadType == Background then SetBackground(url) else AddImageObject(url)
  }

  /** One dispatch per URL, in order. */
  function Dispatches(uploadType: UploadType, urls: seq<string>): (r: seq<Dispatch>)
    ensures |r| == |urls|
    ensures forall i :: 0 <= i < |urls| ==> r[i] == DispatchFor(uploadType, urls[i])
  {
    seq(|urls|, i requires 0 <= i < |urls| => DispatchFor(uploadType, urls[i]))
  }

  // ---------------------------------------------------------------------------
  // The URL pattern ^(https?:\/\/|data:image\/[a-zA-Z]+;base64,)[\w\d+&@#/%?=~_|!:,.;-]+$

  predicate IsLetter(c: char)
  {
    'a' <= c <= 'z' || 'A' <= c <= 'Z'
  }

  /** A character of the class `[\w\d+&@#/%?=~_|!:,.;-]`. */
  predicate IsBodyChar(c: char)
  {
    IsLetter(c) || '0' <= c <= '9' || c in "_+&@#/%?=~|!:,.;-"
  }

  /** One or more body characters. */
  predicate IsBody(s: string)
  {
    |s| > 0 && forall i :: 0 <= i < |s| ==> IsBodyChar(s[i])
  }

  predicate AllLetters(s: string)
  {
    forall i :: 0 <= i < |s| ==> IsLetter(s[i])
  }

  const DataPrefix: string := "data:image/"
  const Base64Marker: string := ";base64,"

  /** The alternatives of the group: `http://`, `https://`, or `data:image/<letters>;base64,`. */
  ghost predicate IsPrefixForm(p: string)
  {
    || p == "http://"
    || p == "https://"
    || (&& |p| > |DataPrefix| + |Base64Marker|
        && p[..|DataPrefix|] == DataPrefix
        && p[|p| - |Base64Marker|..] == Base64Marker
        && AllLetters(p[|DataPrefix|..|p| - |Base64Marker|]))
  }

  /** What the anchored pattern accepts: some split of the string into a prefix form and a body. */
  ghost predicate MatchesUrlPattern(s: string)
  {
    exists n :: 0 <= n <= |s| && IsPrefixForm(s[..n]) && IsBody(s[n..])
  }

  predicate HasPrefix(s: string, p: string)
  {
    |p| <= |s| && s[..|p|] == p
  }

  /** The length of the run of letters that starts `s`. */
  function LetterRun(s: string): (n: nat)
    ensures n <= |s| && AllLetters(s[..n])
    ensures n < |s| ==> !IsLetter(s[n])
  {
    if s == [] || !IsLetter(s[0]) then 0
    else
      var n := 1 + LetterRun(s[1..]);
      assert forall i :: 1 <= i < n ==> s[..n][i] == s[1..][..n - 1][i - 1];
      n
  }

  /** A run of k letters followed by a non-letter is the letter run. */
  lemma LetterRunExact(t: string, k: nat)
    requires k < |t| && AllLetters(t[..k]) && !IsLetter(t[k])
    ensures LetterRun(t) == k
  {
    var n := LetterRun(t);
    forall i | 0 <= i < k
      ensures IsLetter(t[i])
    {
      assert t[..k][i] == t[i];
    }
    forall i | 0 <= i < n
      ensures IsLetter(t[i])
    {
      assert t[..n][i] == t[i];
    }
  }

  /** The validator, reading the string from the left. */
  function IsValidImageUrl(s: string): bool
  {
    if HasPrefix(s, "http://") then IsBody(s[7..])
    else if HasPrefix(s, "https://") then IsBody(s[8..])
    else if HasPrefix(s, DataPrefix) then
      var rest := s[|DataPrefix|..];
      var n := LetterRun(rest);
      n > 0 && HasPrefix(rest[n..], Base64Marker) && IsBody(rest[n + |Base64Marker|..])
    else false
  }

  /** Every string the validator accepts is matched by the pattern. */
  lemma ValidatorSound(s: string)
    requires IsValidImageUrl(s)
    ensures MatchesUrlPattern(s)
  {
    if HasPrefix(s, "http://") {
      assert IsPrefixForm(s[..7]) && IsBody(s[7..]);
    } else if HasPrefix(s, "https://") {
      assert IsPrefixForm(s[..8]) && IsBody(s[8..]);
    } else {
      DataUrlSound(s);
    }
  }

  lemma DataUrlSound(s: string)
    requires HasPrefix(s, DataPrefix)
    requires var rest := s[|DataPrefix|..]; var k := LetterRun(rest);
             k > 0 && HasPrefix(rest[k..], Base64Marker) && IsBody(rest[k + |Base64Marker|..])
    ensures MatchesUrlPattern(s)
  {
    var rest := s[|DataPrefix|..];
    var k := LetterRun(rest);
    var n := |DataPrefix| + k + |Base64Marker|;
    var p := s[..n];
    assert p[..|DataPrefix|] == DataPrefix;
    assert p[|p| - |Base64Marker|..] == rest[k..][..|Base64Marker|];
    assert p[|DataPrefix|..|p| - |Base64Marker|] == rest[..k];
    assert s[n..] == rest[k + |Base64Marker|..];
    assert IsPrefixForm(p);
  }

  /** Every string the pattern matches is accepted by the validator. */
  lemma ValidatorComplete(s: string)
    requires MatchesUrlPattern(s)
    ensures IsValidImageUrl(s)
  {
    var n :| 0 <= n <= |s| && IsPrefixForm(s[..n]) && IsBody(s[n..]);
    var p := s[..n];
    if p == "http://" {
      assert HasPrefix(s, "http://");
    } else if p == "https://" {
      assert s[4] == p[4] == 's';
      assert HasPrefix(s, "https://");
    } else {
      DataUrlComplete(s, n);
    }
  }

  lemma DataUrlComplete(s: string, n: nat)
    requires n <= |s| && IsBody(s[n..])
    requires var p := s[..n];
             && |p| > |DataPrefix| + |Base64Marker|
             && p[..|DataPrefix|] == DataPrefix
             && p[|p| - |Base64Marker|..] == Base64Marker
             && AllLetters(p[|DataPrefix|..|p| - |Base64Marker|])
    ensures IsValidImageUrl(s)
  {
    var p := s[..n];
    assert s[..|DataPrefix|] == p[..|DataPrefix|];
    assert s[0] == p[0] == 'd';
    var rest := s[|DataPrefix|..];
    var k := n - |DataPrefix| - |Base64Marker|;
    assert rest[..k] == p[|DataPrefix|..|p| - |Base64Marker|];
    assert rest[k..][..|Base64Marker|] == p[|p| - |Base64Marker|..];
    assert rest[k] == rest[k..][..|Base64Marker|][0] == ';';
    LetterRunExact(rest, k);
    assert rest[k + |Base64Marker|..] == s[n..];
  }

  /** The validator accepts exactly the strings the pattern matches. */
  lemma ValidatorMatchesPattern(s: string)
    ensures IsValidImageUrl(s) <==> MatchesUrlPattern(s)
  {
    if IsValidImageUrl(s) {
      ValidatorSound(s);
    }
    if MatchesUrlPattern(s) {
      ValidatorComplete(s);
    }
  }

  /** The dialog's state. */
  class FileUploadForm {
    var files: Option<seq<string>>
    var uploadType: UploadType
    var imageUrl: string
    var importType: Option<ImportType>

    /** The two import types exclude each other: a file choice has no URL beside it, a URL no files. */
    ghost predicate Valid()
      reads this
    {
      && (importType == Some(FileImport) ==> imageUrl == "" && files.Some? && |files.value| > 0)
      && (importType == Some(UrlImport) ==> files.None?)
      && (importType.None? ==> files.None? && imageUrl == "")
    }

    constructor ()
      ensures Valid()
      ensures files.None? && uploadType == Object && imageUrl == "" && importType.None?
    {
      files, uploadType, imageUrl, importType := None, Object, "", None;
    }

    /** `handleFileChange`: a non-empty choice of files switches to a file import and clears the URL. */
    method HandleFileChange(selected: Option<seq<string>>)
      requires Valid()
      modifies this
      ensures Valid() && uploadType == old(uploadType)
      ensures selected.Some? && |selected.value| > 0 ==>
                files == selected && importType == Some(FileImport) && imageUrl == ""
      ensures selected.None? || |selected.value| == 0 ==>
                files == old(files) && importType == old(importType) && imageUrl == old(imageUrl)
    {
      if selected.Some? && |selected.value| > 0 {
        files := selected;
        importType := Some(FileImport);
        imageUrl := "";
      }
    }

    /** `handleUrlChange`: editing the URL switches to a URL import and drops the chosen files. */
    method HandleUrlChange(value: string)
      requires Valid()
      modifies this
      ensures Valid() && uploadType == old(uploadType)
      ensures imageUrl == value && importType == Some(UrlImport) && files.None?
    {
      imageUrl := value;
      importType := Some(UrlImport);
      files := None;
    }

    /** The background/object radio buttons. */
    method SetUploadType(t: UploadType)
      requires Valid()
      modifies this`uploadType
      ensures Valid() && uploadType == t
    {
      uploadType := t;
    }

    /** `handleDialogClose`: back to the initial state. */
    method HandleDialogClose()
      modifies this
      ensures Valid()
      ensures files.None? && imageUrl == "" && importType.None? && uploadType == Object
    {
      files, imageUrl, importType, uploadType := None, "", None, Object;
    }

    /**
     * `handleUpload`. Returns the handler calls made, in order, and whether the
     * invalid-URL toast was shown. A file import dispatches every file; a URL
     * import dispatches the URL if the pattern accepts it and otherwise stops
     * with the toast, leaving the dialog as it was; anything else dispatches
     * nothing. Every upload that is not stopped closes the dialog.
     */
    method HandleUpload() returns (dispatched: seq<Dispatch>, invalidUrl: bool)
      requires Valid()
      modifies this
      ensures Valid()
      ensures var fileBranch := old(importType) == Some(FileImport) && old(files).Some? && |old(files).value| > 0;
              var urlBranch := !fileBranch && old(importType) == Some(UrlImport) && old(imageUrl) != "";
              && (invalidUrl <==> urlBranch && !MatchesUrlPattern(old(imageUrl)))
              && (invalidUrl ==> dispatched == [] && unchanged(this))
              && (!invalidUrl ==> files.None? && imageUrl == "" && importType.None? && uploadType == Object)
              && (fileBranch ==> dispatched == Dispatches(old(uploadType), old(files).value))
              && (urlBranch && !invalidUrl ==> dispatched == [DispatchFor(old(uploadType), old(imageUrl))])
              && (!fileBranch && !urlBranch ==> dispatched == [])
    {
      dispatched := [];
      invalidUrl := false;
      if importType == Some(FileImport) && files.Some? && |files.value| > 0 {
        var fs := files.value;
        var i := 0;
        while i < |fs|
          invariant 0 <= i <= |fs|
          invariant |dispatched| == i
          invariant forall j :: 0 <= j < i ==> dispatched[j] == DispatchFor(uploadType, fs[j])
        {
          dispatched := dispatched + [DispatchFor(uploadType, fs[i])];
          i := i + 1;
        }
      } else if importType == Some(UrlImport) && imageUrl != "" {
        ValidatorMatchesPattern(imageUrl);
        if !IsValidImageUrl(imageUrl) {
          invalidUrl := true;
          return;
        }
        dispatched := [DispatchFor(uploadType, imageUrl)];
      }
      HandleDialogClose();
    }
  }
}
