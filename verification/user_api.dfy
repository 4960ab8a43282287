/** The request builders of the profile endpoints (src/api/user.ts). */
module UserApi {
  import opened ApiTypes
  import opened Http

  const UserInfoPath := "/users/info"
  const UpdateUserInfoPath := "/users/update/my-info"
  const UploadPath := "/files/upload"
  const AvatarFolder := "merchant/avatar"
  const DefaultSuffix := "png"

  function GetUserInfoRequest(): (r: Request)
    ensures r.verb == Get && r.url == UserInfoPath && r.body == NoBody
  {
    Request(Get, UserInfoPath, DefaultHeaders, NoBody)
  }

  /** The profile changes are posted as they are. */
  function UpdateUserInfoRequest(data: UserInfo): (r: Request)
    ensures r.verb == Post && r.url == UpdateUserInfoPath && r.body == ProfileBody(data)
  {
    Request(Post, UpdateUserInfoPath, DefaultHeaders, ProfileBody(data))
  }

  // ----- splitting a file name -----

  /**
    JavaScript's `s.split(sep)` for a one-character separator: the pieces
    between separators, in order, with an empty piece around each separator
    at an edge or next to another separator.
   */
  function Split(s: string, sep: char): (parts: seq<string>)
    ensures |parts| >= 1
    ensures forall i :: 0 <= i < |parts| ==> sep !in parts[i]
    ensures |parts| == 1 <==> sep !in s
    ensures |parts| == 1 ==> parts[0] == s
    decreases |s|
  {
    if s == [] then [[]]
    else
      var rest := Split(s[1..], sep);
      if s[0] == sep then [[]] + rest
      else [[s[0]] + rest[0]] + rest[1..]
  }

  /** `pieces.join(sep)`. */
  function Join(parts: seq<string>, sep: char): string
    requires |parts| >= 1
  {
    if |parts| == 1 then parts[0] else parts[0] + [sep] + Join(parts[1..], sep)
  }

  /** Splitting loses nothing: joining the pieces gives the text back. */
  lemma {:induction false} JoinSplit(s: string, sep: char)
    ensures Join(Split(s, sep), sep) == s
    decreases |s|
  {
    if s != [] {
      var rest := Split(s[1..], sep);
      JoinSplit(s[1..], sep);
      if s[0] == sep {
        assert Split(s, sep)[1..] == rest;
        assert s == [sep] + s[1..];
      } else {
        var parts := Split(s, sep);
        if |rest| == 1 {
          assert s == [s[0]] + s[1..];
        } else {
          assert parts[1..] == rest[1..];
          assert Join(rest, sep) == rest[0] + [sep] + Join(rest[1..], sep);
          assert s == [s[0]] + s[1..];
        }
      }
    }
  }

  function Last(parts: seq<string>): string
    requires |parts| >= 1
  {
    parts[|parts| - 1]
  }

  /**
    The last piece is the longest suffix free of the separator: it ends the
    text, holds no separator, and is either all of it or preceded by one.
   */
  lemma {:induction false} LastPieceIsFinalSegment(s: string, sep: char)
    ensures var last := Last(Split(s, sep));
      && |last| <= |s| && last == s[|s| - |last|..] && sep !in last
      && (|last| < |s| ==> s[|s| - |last| - 1] == sep)
    decreases |s|
  {
    if s != [] {
      LastPieceIsFinalSegment(s[1..], sep);
      var rest := Split(s[1..], sep);
      var last := Last(Split(s, sep));
      if s[0] == sep || |rest| > 1 {
        assert last == Last(rest);
        assert s[1..][|s| - 1 - |last|..] == s[|s| - |last|..];
        if |last| < |s| - 1 {
          assert s[1..][|s| - 1 - |last| - 1] == sep;
        }
      } else {
        assert last == [s[0]] + s[1..];
      }
    }
  }

  /** `file.name.split('.').pop() || 'png'`. */
  function AvatarSuffix(fileName: string): string
  {
    var last := Last(Split(fileName, '.'));
    if last == "" then DefaultSuffix else last
  }

  /**
    The suffix is the text after the last dot; the whole name when there is
    no dot; and `png` for an empty name or one that ends in a dot. It is
    never empty and holds no dot.
   */
  lemma AvatarSuffixIsExtension(fileName: string)
    ensures '.' !in fileName ==> AvatarSuffix(fileName) == (if fileName == "" then DefaultSuffix else fileName)
    ensures forall k :: 0 <= k < |fileName| && fileName[k] == '.' && '.' !in fileName[k + 1..] ==>
      AvatarSuffix(fileName) == (if k == |fileName| - 1 then DefaultSuffix else fileName[k + 1..])
    ensures AvatarSuffix(fileName) != "" && '.' !in AvatarSuffix(fileName)
  {
    LastPieceIsFinalSegment(fileName, '.');
  }

  /** The multipart form of an avatar upload. */
  function AvatarForm(fileName: string): (fields: seq<FormField>)
    ensures |fields| == 3
    ensures fields[0] == FormField("file", FileValue(fileName))
    ensures fields[1] == FormField("folder", TextValue(AvatarFolder))
    ensures fields[2] == FormField("suffix", TextValue(AvatarSuffix(fileName)))
    ensures fields[2].value.text != "" && '.' !in fields[2].value.text
  {
    AvatarSuffixIsExtension(fileName);
    [ FormField("file", FileValue(fileName)),
      FormField("folder", TextValue(AvatarFolder)),
      FormField("suffix", TextValue(AvatarSuffix(fileName))) ]
  }

  /** The upload posts the form with a multipart content type. */
  function UploadAvatarRequest(fileName: string): (r: Request)
    ensures r.verb == Post && r.url == UploadPath && r.body == FormBody(AvatarForm(fileName))
    ensures ContentTypeHeader in r.headers && r.headers[ContentTypeHeader] == "multipart/form-data"
  {
    Request(Post, UploadPath, DefaultHeaders[ContentTypeHeader := "multipart/form-data"], FormBody(AvatarForm(fileName)))
  }
}
