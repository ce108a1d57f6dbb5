/** The bulk upload processor and the single-post dispatch pass of the
    polling scheduling service (bulk_upload_service.py). */
module BulkUploadService {
  import opened Wrappers
  import opened Text
  import opened Models
  import opened Clock

  // =====================================================================
  // validate_file

  const SupportedFormats: seq<string> := [".csv", ".xlsx", ".xls"]

  /** Index of the last occurrence of `c`, or -1. */
  function LastIndexOf(s: string, c: char): (r: int)
    ensures -1 <= r < |s|
    ensures r >= 0 ==> s[r] == c
    ensures forall k :: r < k < |s| ==> s[k] != c
  {
    if s == [] then -1
    else if s[|s| - 1] == c then |s| - 1
    else LastIndexOf(s[..|s| - 1], c)
  }

  /** The extension os.path.splitext gives a POSIX path: from the last '.' of
      the last path component, unless only dots precede it in that component. */
  function Extension(path: string): string {
    var sep := LastIndexOf(path, '/');
    var dot := LastIndexOf(path, '.');
    if dot > sep && exists k :: sep + 1 <= k < dot && path[k] != '.' then path[dot..] else ""
  }

  /** A missing file or an empty filename is refused; otherwise the lower-cased
      extension must be one of the supported formats. */
  function ValidateFile(filename: Option<string>): (ok: bool)
    ensures ok ==> filename.Some? && filename.value != ""
  {
    match filename
    case None => false
    case Some(name) => name != "" && Lower(Extension(name)) in SupportedFormats
  }

  /** An accepted file name ends in a supported extension, ignoring case. */
  lemma ValidateFileSuffix(name: string)
    requires ValidateFile(Some(name))
    ensures exists e :: e in SupportedFormats && |e| <= |name| && Lower(name[|name| - |e|..]) == e
  {
    var dot := LastIndexOf(name, '.');
    var ext := name[dot..];
    assert Extension(name) == ext;
    var e := Lower(ext);
    assert |e| == |ext| == |name| - dot;
    assert name[|name| - |e|..] == ext;
    assert e in SupportedFormats && |e| <= |name| && Lower(name[|name| - |e|..]) == e;
  }

  /** Any name with a supported extension (in any case) after a non-empty stem
      that does not end in '.' or '/' is accepted. */
  lemma ValidateFileAccepts(stem: string, ext: string)
    requires stem != [] && stem[|stem| - 1] != '.' && stem[|stem| - 1] != '/'
    requires Lower(ext) in SupportedFormats
    ensures ValidateFile(Some(stem + ext))
  {
    var path := stem + ext;
    var low := Lower(ext);
    assert low[0] == '.' && forall k :: 1 <= k < |low| ==> 'a' <= low[k] <= 'z';
    assert ext[0] == '.';
    forall k | 1 <= k < |ext| ensures ext[k] != '.' && ext[k] != '/' {
      assert low[k] == LowerChar(ext[k]);
    }
    assert path[|stem|] == '.';
    assert forall k :: |stem| < k < |path| ==> path[k] == ext[k - |stem|];
    var dot := LastIndexOf(path, '.');
    assert dot == |stem|;
    var sep := LastIndexOf(path, '/');
    assert sep < |stem| - 1;
    assert path[|stem| - 1] != '.';
    assert path[dot..] == ext;
  }

  /** Hidden files have no extension, and case is ignored. */
  lemma ValidateFileExamples()
    ensures !ValidateFile(Some(".csv"))
    ensures !ValidateFile(Some(""))
    ensures !ValidateFile(None)
    ensures ValidateFile(Some("Posts.CSV"))
  {
    var hidden := ".csv";
    assert hidden[0] == '.' && hidden[1] != '.' && hidden[2] != '.' && hidden[3] != '.';
    assert LastIndexOf(hidden, '.') == 0;
    assert Extension(hidden) == "";
    assert Lower("") == "";
    var upper := ".CSV";
    assert Lower(upper) == ".csv" by {
      assert LowerChar('C') == 'c' && LowerChar('S') == 's' && LowerChar('V') == 'v' && LowerChar('.') == '.';
      assert forall k :: 0 <= k < 4 ==> Lower(upper)[k] == ".csv"[k];
    }
    ValidateFileAccepts("Posts", upper);
    assert "Posts" + ".CSV" == "Posts.CSV";
  }

  // =====================================================================
  // _standardize_platform_name

  /** Maps the accepted spellings of each platform to its canonical name. */
  function StandardizePlatformName(platform: string): (r: Option<string>)
    ensures r.Some? ==> r.value in AllPlatforms
  {
    var p := Strip(Lower(platform));
    if p in ["tiktok", "tik tok", "tt"] then Some("tiktok")
    else if p in ["instagram", "insta", "ig"] then Some("instagram")
    else if p in ["youtube", "yt", "you tube"] then Some("youtube")
    else None
  }

  lemma CleanName(s: string)
    requires s == "tiktok" || s == "instagram" || s == "youtube"
    ensures Strip(Lower(s)) == s
  {
    LowerClean(s);
    StripClean(s);
  }

  /** Every canonical name is mapped to itself. */
  lemma CanonicalNamesFixed()
    ensures forall c :: c in AllPlatforms ==> StandardizePlatformName(c) == Some(c)
  {
    CleanName("tiktok");
    CleanName("instagram");
    CleanName("youtube");
  }

  /** Standardising is idempotent. */
  lemma StandardizeIdempotent(platform: string)
    requires StandardizePlatformName(platform).Some?
    ensures StandardizePlatformName(StandardizePlatformName(platform).value) == StandardizePlatformName(platform)
  {
    CanonicalNamesFixed();
  }

  /** Only case and surrounding whitespace are ignored: normalising first
      does not change the answer. */
  lemma StandardizeNormalised(platform: string)
    ensures StandardizePlatformName(Strip(Lower(platform))) == StandardizePlatformName(platform)
  {
    NormaliseIdempotent(platform);
  }

  // =====================================================================
  // _parse_hashtags

  const HashtagDelimiters: seq<char> := [',', ';', ' ', '\n']

  /** The first delimiter of the list that occurs in the text. */
  function FirstDelimiter(s: string): (d: Option<char>)
    ensures d.Some? ==> exists i :: 0 <= i < |HashtagDelimiters| && d.value == HashtagDelimiters[i]
                          && d.value in s && forall j :: 0 <= j < i ==> HashtagDelimiters[j] !in s
    ensures d.None? ==> forall j :: 0 <= j < |HashtagDelimiters| ==> HashtagDelimiters[j] !in s
  {
    assert HashtagDelimiters[0] == ',' && HashtagDelimiters[1] == ';';
    assert HashtagDelimiters[2] == ' ' && HashtagDelimiters[3] == '\n';
    if ',' in s then Some(',')
    else if ';' in s then Some(';')
    else if ' ' in s then Some(' ')
    else if '\n' in s then Some('\n')
    else None
  }

  function HashtagParts(s: string): seq<string> {
    match FirstDelimiter(s)
    case Some(d) => Split(s, d)
    case None => [s]
  }

  /** The tag a piece contributes: none when blank, else the stripped piece
      with '#' put in front unless it already starts with one. */
  function TagOf(part: string): seq<string> {
    var tag := Strip(part);
    if tag == [] then [] else if tag[0] == '#' then [tag] else ["#" + tag]
  }

  function TagsOf(parts: seq<string>): seq<string> {
    if parts == [] then [] else TagOf(parts[0]) + TagsOf(parts[1..])
  }

  function Hashtags(s: string): seq<string> {
    TagsOf(HashtagParts(s))
  }

  lemma {:induction false} TagsOfAppend(a: seq<string>, b: seq<string>)
    ensures TagsOf(a + b) == TagsOf(a) + TagsOf(b)
  {
    if a != [] {
      assert (a + b)[1..] == a[1..] + b;
      TagsOfAppend(a[1..], b);
    } else {
      assert a + b == b;
    }
  }

  method ParseHashtags(hashtagStr: string) returns (hashtags: seq<string>)
    ensures hashtags == Hashtags(hashtagStr)
  {
    var parts := [hashtagStr];
    var i := 0;
    while i < |HashtagDelimiters|
      invariant 0 <= i <= |HashtagDelimiters|
      invariant forall j :: 0 <= j < i ==> HashtagDelimiters[j] !in hashtagStr
      invariant parts == [hashtagStr]
    {
      if HashtagDelimiters[i] in hashtagStr {
        parts := Split(hashtagStr, HashtagDelimiters[i]);
        break;
      }
      i := i + 1;
    }
    assert parts == HashtagParts(hashtagStr);
    hashtags := [];
    for k := 0 to |parts|
      invariant hashtags == TagsOf(parts[..k])
    {
      var tag := Strip(parts[k]);
      if tag != [] {
        if tag[0] != '#' {
          tag := "#" + tag;
        }
        hashtags := hashtags + [tag];
      }
      assert parts[..k + 1] == parts[..k] + [parts[k]];
      TagsOfAppend(parts[..k], [parts[k]]);
    }
    assert parts[..|parts|] == parts;
  }

  /** Every tag is non-empty and starts with '#'; a piece that already started
      with '#' is kept unchanged; every tag comes from one piece. */
  lemma {:induction false} TagsOfShape(parts: seq<string>)
    ensures forall t :: t in TagsOf(parts) ==> |t| > 0 && t[0] == '#'
    ensures forall p :: p in parts && Strip(p) != [] && Strip(p)[0] == '#' ==> Strip(p) in TagsOf(parts)
    ensures forall t :: t in TagsOf(parts) ==> exists p :: p in parts && (t == Strip(p) || t == "#" + Strip(p))
    ensures |TagsOf(parts)| <= |parts|
  {
    if parts != [] {
      TagsOfShape(parts[1..]);
      assert TagsOf(parts) == TagOf(parts[0]) + TagsOf(parts[1..]);
      forall t | t in TagsOf(parts)
        ensures exists p :: p in parts && (t == Strip(p) || t == "#" + Strip(p))
      {
        if t in TagOf(parts[0]) {
          assert parts[0] in parts;
        } else {
          assert t in TagsOf(parts[1..]);
          var p :| p in parts[1..] && (t == Strip(p) || t == "#" + Strip(p));
          assert p in parts;
        }
      }
    }
  }

  /** Parsed hashtags are non-empty and start with '#'; without a delimiter
      the whole text is one tag. */
  lemma HashtagsWellFormed(s: string)
    ensures forall t :: t in Hashtags(s) ==> |t| > 0 && t[0] == '#'
    ensures FirstDelimiter(s).None? ==> Hashtags(s) == TagOf(s)
  {
    TagsOfShape(HashtagParts(s));
    if FirstDelimiter(s).None? {
      assert HashtagParts(s) == [s];
      assert TagsOf([s]) == TagOf(s) + TagsOf([]);
    }
  }

  /** The pieces split at the chosen delimiter join back to the input, and
      no tag contains that delimiter. */
  lemma HashtagsSplitAt(s: string, d: char)
    requires FirstDelimiter(s) == Some(d)
    ensures Join(HashtagParts(s), d) == s
    ensures forall t :: t in Hashtags(s) ==> d !in t
  {
    var parts := HashtagParts(s);
    assert parts == Split(s, d);
    TagsOfShape(parts);
    SplitJoin(s, d);
    SplitPieces(s, d);
    forall t | t in Hashtags(s) ensures d !in t {
      var p :| p in parts && (t == Strip(p) || t == "#" + Strip(p));
      StripInfix(p);
      assert d != '#';
    }
  }

  // =====================================================================
  // _extract_post_data

  /** A spreadsheet row: (column name, cell text) pairs in column order, each
      cell already turned into text by str(). */
  type Row = seq<(string, string)>

  const ContentFields: seq<string> := ["content", "text", "post", "caption", "description"]
  const PlatformFields: seq<string> := ["platforms", "platform", "targets", "social_media"]
  const HashtagFields: seq<string> := ["hashtags", "tags", "hash_tags"]

  /** The post a row describes. */
  datatype PostData = PostData(content: string, platforms: seq<string>, hashtags: seq<string>, rowNumber: int)

  /** Whether a column name, lower-cased and stripped, is `field`. */
  predicate NamesField(column: string, field: string) {
    Strip(Lower(column)) == field
  }

  /** The cell of the first column whose name is `field`. */
  function ColumnValue(row: Row, field: string): Option<string> {
    if row == [] then None
    else if NamesField(row[0].0, field) then Some(row[0].1)
    else ColumnValue(row[1..], field)
  }

  /** A column value exists exactly when some column is named `field`, and it
      is the cell of the first such column. */
  lemma {:induction false} ColumnValueFirst(row: Row, field: string)
    ensures ColumnValue(row, field).Some? <==> exists k :: 0 <= k < |row| && NamesField(row[k].0, field)
    ensures ColumnValue(row, field).Some? ==>
      exists k :: 0 <= k < |row| && NamesField(row[k].0, field) && ColumnValue(row, field).value == row[k].1
        && forall j :: 0 <= j < k ==> !NamesField(row[j].0, field)
  {
    if row != [] && !NamesField(row[0].0, field) {
      var rest := row[1..];
      ColumnValueFirst(rest, field);
      if ColumnValue(rest, field).Some? {
        var k :| 0 <= k < |rest| && NamesField(rest[k].0, field) && ColumnValue(rest, field).value == rest[k].1
          && forall j :: 0 <= j < k ==> !NamesField(rest[j].0, field);
        forall j | 0 <= j < k + 1 ensures !NamesField(row[j].0, field) {
          if j > 0 {
            assert row[j] == rest[j - 1];
          }
        }
        assert row[k + 1] == rest[k];
      } else {
        forall k | 0 <= k < |row| ensures !NamesField(row[k].0, field) {
          if k > 0 {
            assert row[k] == rest[k - 1];
          }
        }
      }
    }
  }

  /** The inner loop over the row's keys. */
  method FindColumn(row: Row, field: string) returns (value: Option<string>)
    ensures value == ColumnValue(row, field)
  {
    var k := 0;
    while k < |row|
      invariant 0 <= k <= |row|
      invariant ColumnValue(row[k..], field) == ColumnValue(row, field)
    {
      if NamesField(row[k].0, field) {
        return Some(row[k].1);
      }
      assert row[k..][1..] == row[k + 1..];
      k := k + 1;
    }
    return None;
  }

  /** Text that is neither empty nor 'nan' nor 'none' in any case. */
  predicate Meaningful(s: string) {
    Lower(s) !in ["", "nan", "none"]
  }

  /** The content search from field `i` on, `content` being the value so far:
      a matching column replaces it, and a non-empty value ends the search. */
  function ContentFrom(row: Row, i: nat, content: Option<string>): Option<string>
    decreases |ContentFields| - i
  {
    if i >= |ContentFields| then content
    else
      var c := match ColumnValue(row, ContentFields[i]) {
        case Some(v) => Some(Strip(v))
        case None => content
      };
      if c.Some? && c.value != [] then c else ContentFrom(row, i + 1, c)
  }

  /** The canonical platforms named in a comma-separated list, unknown names dropped. */
  function CanonicalPlatforms(parts: seq<string>): (r: seq<string>)
    ensures forall p :: p in r ==> p in AllPlatforms
  {
    if parts == [] then []
    else
      (match StandardizePlatformName(Strip(parts[0])) {
         case Some(p) => [p]
         case None => []
       }) + CanonicalPlatforms(parts[1..])
  }

  function PlatformCell(cell: string): seq<string> {
    CanonicalPlatforms(Split(Lower(Strip(cell)), ','))
  }

  /** The platforms one platform column gives: the canonical platforms of a
      meaningful cell, otherwise none. */
  function PlatformPick(cell: Option<string>): (r: seq<string>)
    ensures forall p :: p in r ==> p in AllPlatforms
  {
    match cell
    case Some(v) => if Meaningful(Strip(v)) then PlatformCell(v) else []
    case None => []
  }

  /** The platform search from field `i` on: the first field that yields at
      least one canonical platform decides. */
  function PlatformsFrom(row: Row, i: nat): (r: seq<string>)
    ensures forall p :: p in r ==> p in AllPlatforms
    decreases |PlatformFields| - i
  {
    if i >= |PlatformFields| then []
    else
      var p := PlatformPick(ColumnValue(row, PlatformFields[i]));
      if p != [] then p else PlatformsFrom(row, i + 1)
  }

  /** The tags one hashtag column gives: the tags of a meaningful cell,
      otherwise none. */
  function HashtagPick(cell: Option<string>): seq<string> {
    match cell
    case Some(v) => if Meaningful(Strip(v)) then Hashtags(Strip(v)) else []
    case None => []
  }

  /** The hashtag search from field `i` on: the first field that yields at
      least one tag decides. */
  function HashtagsFrom(row: Row, i: nat): seq<string>
    decreases |HashtagFields| - i
  {
    if i >= |HashtagFields| then []
    else
      var h := HashtagPick(ColumnValue(row, HashtagFields[i]));
      if h != [] then h else HashtagsFrom(row, i + 1)
  }

  /** What _extract_post_data makes of a row. */
  function PostDataOf(row: Row, rowNum: int): Option<PostData> {
    var content := ContentFrom(row, 0, None);
    if content.None? || !Meaningful(content.value) then None
    else
      var found := PlatformsFrom(row, 0);
      Some(PostData(content.value, if found == [] then AllPlatforms else found, HashtagsFrom(row, 0), rowNum))
  }

  /** The content loop of _extract_post_data. */
  method FindContent(row: Row) returns (content: Option<string>)
    ensures content == ContentFrom(row, 0, None)
  {
    content := None;
    var i := 0;
    while i < |ContentFields|
      invariant 0 <= i <= |ContentFields|
      invariant ContentFrom(row, i, content) == ContentFrom(row, 0, None)
    {
      var v := FindColumn(row, ContentFields[i]);
      if v.Some? {
        content := Some(Strip(v.value));
      }
      if content.Some? && content.value != [] {
        break;
      }
      i := i + 1;
    }
  }

  /** One platform cell: its canonical platforms unless it is blank, 'nan'
      or 'none'. */
  method CellPlatforms(v: Option<string>) returns (platforms: seq<string>)
    ensures platforms == PlatformPick(v)
  {
    platforms := [];
    if v.Some? {
      var platformStr := Lower(Strip(v.value));
      if Meaningful(Strip(v.value)) {
        platforms := CanonicalPlatforms(Split(platformStr, ','));
      }
    }
  }

  /** The platform loop of _extract_post_data, before the default is applied. */
  method FindPlatforms(row: Row) returns (platforms: seq<string>)
    ensures platforms == PlatformsFrom(row, 0)
  {
    platforms := [];
    var i := 0;
    while i < |PlatformFields|
      invariant 0 <= i <= |PlatformFields|
      invariant platforms == []
      invariant PlatformsFrom(row, i) == PlatformsFrom(row, 0)
    {
      var v := FindColumn(row, PlatformFields[i]);
      platforms := CellPlatforms(v);
      if platforms != [] {
        break;
      }
      i := i + 1;
    }
  }

  /** One hashtag cell: its tags unless it is blank, 'nan' or 'none'. */
  method CellHashtags(v: Option<string>) returns (hashtags: seq<string>)
    ensures hashtags == HashtagPick(v)
  {
    hashtags := [];
    if v.Some? {
      var hashtagStr := Strip(v.value);
      if Meaningful(hashtagStr) {
        hashtags := ParseHashtags(hashtagStr);
      }
    }
  }

  /** The hashtag loop of _extract_post_data. */
  method FindHashtags(row: Row) returns (hashtags: seq<string>)
    ensures hashtags == HashtagsFrom(row, 0)
  {
    hashtags := [];
    var i := 0;
    while i < |HashtagFields|
      invariant 0 <= i <= |HashtagFields|
      invariant hashtags == []
      invariant HashtagsFrom(row, i) == HashtagsFrom(row, 0)
    {
      var v := FindColumn(row, HashtagFields[i]);
      hashtags := CellHashtags(v);
      if hashtags != [] {
        break;
      }
      i := i + 1;
    }
  }

  method ExtractPostData(row: Row, rowNum: int) returns (r: Option<PostData>)
    ensures r == PostDataOf(row, rowNum)
  {
    var content := FindContent(row);
    if content.None? || !Meaningful(content.value) {
      return None;
    }
    var platforms := FindPlatforms(row);
    if platforms == [] {
      platforms := AllPlatforms;
    }
    var hashtags := FindHashtags(row);
    return Some(PostData(content.value, platforms, hashtags, rowNum));
  }

  lemma {:induction false} HashtagsFromShape(row: Row, i: nat)
    ensures forall t :: t in HashtagsFrom(row, i) ==> |t| > 0 && t[0] == '#'
    decreases |HashtagFields| - i
  {
    if i < |HashtagFields| {
      var v := ColumnValue(row, HashtagFields[i]);
      if v.Some? {
        HashtagsWellFormed(Strip(v.value));
      }
      if HashtagPick(v) == [] {
        HashtagsFromShape(row, i + 1);
      }
    }
  }

  lemma {:induction false} ContentFromShape(row: Row, i: nat, content: Option<string>)
    requires content.Some? ==> Strip(content.value) == content.value
    ensures var c := ContentFrom(row, i, content); c.Some? ==> Strip(c.value) == c.value
    decreases |ContentFields| - i
  {
    if i < |ContentFields| {
      var v := ColumnValue(row, ContentFields[i]);
      if v.Some? {
        StripShape(v.value);
        StripClean(Strip(v.value));
      }
      var c := match v {
        case Some(x) => Some(Strip(x))
        case None => content
      };
      if !(c.Some? && c.value != []) {
        ContentFromShape(row, i + 1, c);
      }
    }
  }

  lemma {:induction false} ColumnValueNone(row: Row, field: string)
    requires forall k :: 0 <= k < |row| ==> !NamesField(row[k].0, field)
    ensures ColumnValue(row, field) == None
  {
    if row != [] {
      assert forall k :: 0 <= k < |row| - 1 ==> row[1..][k] == row[k + 1];
      ColumnValueNone(row[1..], field);
    }
  }

  lemma {:induction false} PlatformsFromNone(row: Row, i: nat)
    requires NoPlatformColumn(row)
    ensures PlatformsFrom(row, i) == []
    decreases |PlatformFields| - i
  {
    if i < |PlatformFields| {
      assert PlatformFields[i] in PlatformFields;
      ColumnValueNone(row, PlatformFields[i]);
      PlatformsFromNone(row, i + 1);
    }
  }

  /** A column that names none of the platform fields. */
  predicate NoPlatformColumn(row: Row) {
    forall k, f :: 0 <= k < |row| && f in PlatformFields ==> !NamesField(row[k].0, f)
  }

  /** The post a row yields has stripped, meaningful content, a non-empty list
      of canonical platforms and tags that start with '#'. */
  lemma PostDataWellFormed(row: Row, rowNum: int)
    requires PostDataOf(row, rowNum).Some?
    ensures var d := PostDataOf(row, rowNum).value;
      && Meaningful(d.content) && d.content != [] && Strip(d.content) == d.content
      && d.platforms != [] && (forall p :: p in d.platforms ==> p in AllPlatforms)
      && (forall t :: t in d.hashtags ==> |t| > 0 && t[0] == '#')
      && d.rowNumber == rowNum
  {
    var content := ContentFrom(row, 0, None);
    ContentFromShape(row, 0, None);
    HashtagsFromShape(row, 0);
    var found := PlatformsFrom(row, 0);
    var d := PostData(content.value, if found == [] then AllPlatforms else found, HashtagsFrom(row, 0), rowNum);
    assert PostDataOf(row, rowNum) == Some(d);
    assert Lower(d.content) != "";
  }

  /** The platforms of a post: those of the first platform field that names a
      canonical platform, and all three when no field does (no platform
      column, a blank, 'nan' or 'none' cell, or only unknown names). */
  lemma PostDataDefaultPlatforms(row: Row, rowNum: int)
    requires PostDataOf(row, rowNum).Some?
    ensures PlatformsFrom(row, 0) == [] ==> PostDataOf(row, rowNum).value.platforms == AllPlatforms
    ensures PlatformsFrom(row, 0) != [] ==> PostDataOf(row, rowNum).value.platforms == PlatformsFrom(row, 0)
  {
  }

  /** A row without any platform column goes to all three platforms. */
  lemma NoPlatformColumnDefault(row: Row, rowNum: int)
    requires PostDataOf(row, rowNum).Some? && NoPlatformColumn(row)
    ensures PostDataOf(row, rowNum).value.platforms == AllPlatforms
  {
    PlatformsFromNone(row, 0);
  }

  /** A row yields no post exactly when no content field gives a value, or
      the content found is '', 'nan' or 'none' in any case. */
  lemma PostDataNone(row: Row, rowNum: int)
    ensures PostDataOf(row, rowNum).None? <==>
      ContentFrom(row, 0, None).None? || Lower(ContentFrom(row, 0, None).value) in ["", "nan", "none"]
  {
  }

  /** A column that names none of the content fields. */
  predicate NoContentColumn(row: Row) {
    forall k, f :: 0 <= k < |row| && f in ContentFields ==> !NamesField(row[k].0, f)
  }

  lemma {:induction false} ContentFromNone(row: Row, i: nat)
    requires NoContentColumn(row)
    ensures ContentFrom(row, i, None) == None
    decreases |ContentFields| - i
  {
    if i < |ContentFields| {
      assert ContentFields[i] in ContentFields;
      ColumnValueNone(row, ContentFields[i]);
      ContentFromNone(row, i + 1);
    }
  }

  /** A row without a content column yields no post. */
  lemma NoContentColumnSkipped(row: Row, rowNum: int)
    requires NoContentColumn(row)
    ensures PostDataOf(row, rowNum).None?
  {
    ContentFromNone(row, 0);
  }

  // =====================================================================
  // The row loop of parse_csv_file / parse_excel_file

  /** The posts of the rows, rows numbered from 1, rows without a post skipped. */
  function ParsedRows(rows: seq<Row>): seq<PostData> {
    if rows == [] then []
    else
      ParsedRows(rows[..|rows| - 1]) +
      match PostDataOf(rows[|rows| - 1], |rows|) {
        case Some(d) => [d]
        case None => []
      }
  }

  method ParseRows(rows: seq<Row>) returns (posts: seq<PostData>)
    ensures posts == ParsedRows(rows)
  {
    posts := [];
    for k := 0 to |rows|
      invariant posts == ParsedRows(rows[..k])
    {
      var postData := ExtractPostData(rows[k], k + 1);
      if postData.Some? {
        posts := posts + [postData.value];
      }
      assert rows[..k + 1][..k] == rows[..k];
    }
    assert rows[..|rows|] == rows;
  }

  /** Parsed posts keep the rows' order: row numbers rise strictly and lie in
      1..|rows|. */
  lemma {:induction false} ParsedRowsOrdered(rows: seq<Row>)
    ensures |ParsedRows(rows)| <= |rows|
    ensures forall j :: 0 <= j < |ParsedRows(rows)| ==> 1 <= ParsedRows(rows)[j].rowNumber <= |rows|
    ensures forall j, k :: 0 <= j < k < |ParsedRows(rows)| ==> ParsedRows(rows)[j].rowNumber < ParsedRows(rows)[k].rowNumber
  {
    if rows != [] {
      ParsedRowsOrdered(rows[..|rows| - 1]);
    }
  }

  // =====================================================================
  // _create_scheduled_posts

  const DefaultDailyTimes: seq<string> := ["09:00", "18:00"]

  /** The raised error when a daily time is not a valid "HH:MM". */
  const BadTimeError: string := "invalid daily post time"

  /** str(e) of the AttributeError raised when the upload's user is missing. */
  const NoUserError: string := "'NoneType' object has no attribute 'daily_post_times'"

  /** user.daily_post_times or the default. */
  function DailyTimes(userTimes: seq<string>): (slots: seq<string>)
    ensures slots != []
    ensures userTimes != [] ==> slots == userTimes
  {
    if userTimes == [] then DefaultDailyTimes else userTimes
  }

  /** `hour, minute = map(int, time_str.split(':'))` followed by the range check
      of datetime.replace; None where either raises. */
  function ParseSlot(slot: string): (r: Option<(int, int)>)
    ensures r.Some? ==> 0 <= r.value.0 < 24 && 0 <= r.value.1 < 60
  {
    var parts := Split(slot, ':');
    if |parts| != 2 then None
    else
      match (ParseInt(parts[0]), ParseInt(parts[1]))
      case (Some(h), Some(m)) => if 0 <= h < 24 && 0 <= m < 60 then Some((h, m)) else None
      case _ => None
  }

  /** The BulkUpload record of the service. */
  datatype UploadRecord = UploadRecord(
    id: int, userId: int, name: string, totalPosts: nat, processedPosts: nat,
    status: UploadStatus, startDate: int, scheduleType: string, targetPlatforms: seq<string>)

  /** A post created by the bulk service. */
  datatype NewPost = NewPost(
    userId: int, content: string, scheduledTime: int, targetPlatforms: seq<string>,
    hashtags: seq<string>, bulkUploadId: int)

  /** The time item `i` of the batch is scheduled at, or None when its daily
      time does not parse: daily cycles through the slots, one day per round;
      immediate spaces items two minutes apart; anything else one hour apart. */
  function ScheduledTime(scheduleType: string, start: int, slots: seq<string>, i: nat): Option<int>
    requires slots != []
  {
    if scheduleType == "daily" then
      match ParseSlot(slots[i % |slots|])
      case Some((h, m)) => Some((start / MinutesPerDay + i / |slots|) * MinutesPerDay + h * 60 + m)
      case None => None
    else if scheduleType == "immediate" then Some(start + 2 * i)
    else Some(start + 60 * i)
  }

  /** The post made for one parsed row; every parsed row names its platforms,
      so the batch's target platforms are never consulted. */
  function PostFor(upload: UploadRecord, data: PostData, time: int): NewPost {
    NewPost(upload.userId, data.content, time, data.platforms, data.hashtags, upload.id)
  }

  /** One daily step: the slot of the index, on the round's date, and the
      date moved on by a day when the index completes a round of slots. */
  method DailySlotTime(start: int, slots: seq<string>, currentDate: int, postTimeIndex: nat)
    returns (time: Option<int>, nextDate: int)
    requires slots != [] && currentDate == start + (postTimeIndex / |slots|) * MinutesPerDay
    ensures time == ScheduledTime("daily", start, slots, postTimeIndex)
    ensures time.Some? ==> nextDate == start + ((postTimeIndex + 1) / |slots|) * MinutesPerDay
  {
    var slot := ParseSlot(slots[postTimeIndex % |slots|]);
    nextDate := currentDate;
    if slot.None? {
      return None, nextDate;
    }
    var (hour, minute) := slot.value;
    DailyStepTime(start, slots, postTimeIndex, hour, minute);
    time := Some(AtTimeOfDay(currentDate, hour, minute));
    if (postTimeIndex + 1) % |slots| == 0 {
      nextDate := currentDate + MinutesPerDay;
    }
  }

  lemma DailyStepTime(start: int, slots: seq<string>, idx: nat, hour: int, minute: int)
    requires slots != [] && ParseSlot(slots[idx % |slots|]) == Some((hour, minute))
    ensures ScheduledTime("daily", start, slots, idx) == Some(AtTimeOfDay(start + (idx / |slots|) * MinutesPerDay, hour, minute))
    ensures start + ((idx + 1) / |slots|) * MinutesPerDay
      == start + (idx / |slots|) * MinutesPerDay + (if (idx + 1) % |slots| == 0 then MinutesPerDay else 0)
  {
    DailyStep(start, |slots|, idx, hour, minute);
  }

  /** Creates the posts of the batch in order. `userTimes` is the user's
      daily_post_times, None when the user does not exist (reading the
      attribute then raises before any post is made). When a daily time
      fails to parse, the posts made so far are returned with the error. */
  method CreateScheduledPosts(upload: UploadRecord, postsData: seq<PostData>, startDate: Option<int>,
                              now: int, userTimes: Option<seq<string>>)
    returns (created: seq<NewPost>, error: Option<string>)
    ensures userTimes.None? ==> created == [] && error == Some(NoUserError)
    ensures userTimes.Some? ==>
      var start := startDate.GetOr(now);
      var slots := DailyTimes(userTimes.value);
      && |created| <= |postsData|
      && (forall j :: 0 <= j < |created| ==>
            && ScheduledTime(upload.scheduleType, start, slots, j).Some?
            && created[j] == PostFor(upload, postsData[j], ScheduledTime(upload.scheduleType, start, slots, j).value))
      && (error.None? <==> |created| == |postsData|)
      && (error.Some? ==> error == Some(BadTimeError) && ScheduledTime(upload.scheduleType, start, slots, |created|).None?)
    ensures userTimes.Some? && upload.scheduleType != "daily" ==> error.None?
  {
    if userTimes.None? {
      return [], Some(NoUserError);
    }
    var start := startDate.GetOr(now);
    var dailyTimes := DailyTimes(userTimes.value);
    var n := |dailyTimes|;
    var currentDate := start;
    var postTimeIndex: nat := 0;
    created := [];
    error := None;
    for i := 0 to |postsData|
      invariant |created| == i
      invariant upload.scheduleType == "daily" ==> postTimeIndex == i
      invariant currentDate == start + (postTimeIndex / n) * MinutesPerDay
      invariant forall j :: 0 <= j < i ==>
        && ScheduledTime(upload.scheduleType, start, dailyTimes, j).Some?
        && created[j] == PostFor(upload, postsData[j], ScheduledTime(upload.scheduleType, start, dailyTimes, j).value)
    {
      var scheduledTime: int;
      if upload.scheduleType == "daily" {
        var slotTime;
        slotTime, currentDate := DailySlotTime(start, dailyTimes, currentDate, postTimeIndex);
        if slotTime.None? {
          error := Some(BadTimeError);
          return;
        }
        scheduledTime := slotTime.value;
        postTimeIndex := postTimeIndex + 1;
      } else if upload.scheduleType == "immediate" {
        scheduledTime := start + 2 * i;
      } else {
        scheduledTime := start + 60 * i;
      }
      assert ScheduledTime(upload.scheduleType, start, dailyTimes, i) == Some(scheduledTime);
      created := created + [PostFor(upload, postsData[i], scheduledTime)];
    }
  }

  /** Immediate batches are spaced two minutes apart, all other non-daily
      ones an hour apart, and neither can fail. */
  lemma NonDailySpacing(scheduleType: string, start: int, slots: seq<string>, i: nat)
    requires slots != [] && scheduleType != "daily"
    ensures scheduleType == "immediate" ==> ScheduledTime(scheduleType, start, slots, i) == Some(start + 2 * i)
    ensures scheduleType != "immediate" ==> ScheduledTime(scheduleType, start, slots, i) == Some(start + 60 * i)
  {
  }

  /** Daily item i lands on day start + i div n at slot i mod n, seconds zeroed. */
  lemma DailySlotOfItem(start: int, slots: seq<string>, i: nat)
    requires slots != [] && ParseSlot(slots[i % |slots|]).Some?
    ensures ScheduledTime("daily", start, slots, i).Some?
    ensures var t := ScheduledTime("daily", start, slots, i).value;
      var (h, m) := ParseSlot(slots[i % |slots|]).value;
      t / MinutesPerDay == start / MinutesPerDay + i / |slots| && t % MinutesPerDay == h * 60 + m
  {
    var (h, m) := ParseSlot(slots[i % |slots|]).value;
    DivModUnique(ScheduledTime("daily", start, slots, i).value, MinutesPerDay, start / MinutesPerDay + i / |slots|, h * 60 + m);
  }

  /** All slots of a day are used before the next day: item i + n takes item
      i's slot one day later. */
  lemma DailyNextRound(start: int, slots: seq<string>, i: nat)
    requires slots != [] && ScheduledTime("daily", start, slots, i).Some?
    ensures ScheduledTime("daily", start, slots, i + |slots|) == Some(ScheduledTime("daily", start, slots, i).value + MinutesPerDay)
  {
    NextRound(i, |slots|);
  }

  /** The day never goes backwards along the batch. */
  lemma DailyDaysNondecreasing(start: int, slots: seq<string>, i: nat, j: nat)
    requires slots != [] && i <= j
    requires ScheduledTime("daily", start, slots, i).Some? && ScheduledTime("daily", start, slots, j).Some?
    ensures ScheduledTime("daily", start, slots, i).value / MinutesPerDay <= ScheduledTime("daily", start, slots, j).value / MinutesPerDay
  {
    DailySlotOfItem(start, slots, i);
    DailySlotOfItem(start, slots, j);
    DivMonotone(i, j, |slots|);
  }

  /** Split of a one-character step: a non-separator joins the first piece. */
  lemma SplitCons(c: char, rest: string, d: char)
    requires c != d
    ensures Split([c] + rest, d) == [[c] + Split(rest, d)[0]] + Split(rest, d)[1..]
  {
    assert ([c] + rest)[1..] == rest;
  }

  lemma SplitTwoDigits(a: char, b: char)
    requires IsDigit(a) && IsDigit(b)
    ensures Split([a, b, ':', '0', '0'], ':') == [[a, b], "00"]
  {
    var e := Split("", ':');
    assert e == [""];
    SplitCons('0', "", ':');
    assert ['0'] + "" == "0";
    var s1 := Split("0", ':');
    assert s1 == [['0'] + e[0]] + e[1..];
    assert s1 == ["0"];
    SplitCons('0', "0", ':');
    assert ['0'] + "0" == "00";
    var s2 := Split("00", ':');
    assert s2 == [['0'] + s1[0]] + s1[1..];
    assert s2 == ["00"];
    assert ":00"[1..] == "00";
    var s3 := Split(":00", ':');
    assert s3 == [""] + s2;
    SplitCons(b, ":00", ':');
    assert [b] + ":00" == [b, ':', '0', '0'];
    var s4 := Split([b, ':', '0', '0'], ':');
    assert s4 == [[b] + s3[0]] + s3[1..];
    assert s3[0] == "" && s3[1..] == ["00"];
    assert [b] + "" == [b];
    assert s4 == [[b], "00"];
    SplitCons(a, [b, ':', '0', '0'], ':');
    assert [a] + [b, ':', '0', '0'] == [a, b, ':', '0', '0'];
    assert [a] + s4[0] == [a, b];
  }

  lemma StripTwoDigits(a: char, b: char)
    requires IsDigit(a) && IsDigit(b)
    ensures Strip([a, b]) == [a, b]
  {
  }

  /** "HH:00" with two digits parses to hour HH, minute 0. */
  lemma ParseWholeHour(a: char, b: char)
    requires IsDigit(a) && IsDigit(b) && DigitsValue([a, b]) < 24
    ensures ParseSlot([a, b, ':', '0', '0']) == Some((DigitsValue([a, b]) as int, 0))
  {
    SplitTwoDigits(a, b);
    StripTwoDigits(a, b);
    StripTwoDigits('0', '0');
    assert DigitsValue("00") == 0 by { assert "00"[..1] == "0"; }
    assert ParseInt([a, b]) == Some(DigitsValue([a, b]));
    assert ParseInt("00") == Some(0);
  }

  lemma DefaultSlotsParse()
    ensures ParseSlot("09:00") == Some((9, 0))
    ensures ParseSlot("18:00") == Some((18, 0))
  {
    assert DigitsValue("09") == 9 by { assert "09"[..1] == "0"; }
    assert DigitsValue("18") == 18 by { assert "18"[..1] == "1"; }
    ParseWholeHour('0', '9');
    ParseWholeHour('1', '8');
  }

  /** With two slots at 09:00 and 18:00, item i is posted on day i / 2 of
      the batch, at 09:00 for even i and 18:00 for odd i. */
  lemma TwoSlotItem(start: int, slots: seq<string>, i: nat)
    requires |slots| == 2 && ParseSlot(slots[0]) == Some((9, 0)) && ParseSlot(slots[1]) == Some((18, 0))
    ensures ScheduledTime("daily", start, slots, i)
      == Some((start / MinutesPerDay + i / 2) * MinutesPerDay + if i % 2 == 0 then 540 else 1080)
  {
    var r := i % 2;
    assert r == 0 || r == 1;
    assert slots[i % |slots|] == slots[r];
    if r == 0 {
      SlotItem(start, slots, i, 9, 0);
    } else {
      SlotItem(start, slots, i, 18, 0);
    }
  }

  lemma SlotItem(start: int, slots: seq<string>, i: nat, h: int, m: int)
    requires slots != [] && ParseSlot(slots[i % |slots|]) == Some((h, m))
    ensures ScheduledTime("daily", start, slots, i) == Some((start / MinutesPerDay + i / |slots|) * MinutesPerDay + h * 60 + m)
  {
  }

  /** With the default slots ['09:00', '18:00'], item i is posted on day
      i / 2 of the batch, at 09:00 for even i and 18:00 for odd i. */
  lemma DefaultDailySchedule(start: int, i: nat)
    ensures ScheduledTime("daily", start, DefaultDailyTimes, i)
      == Some((start / MinutesPerDay + i / 2) * MinutesPerDay + if i % 2 == 0 then 540 else 1080)
  {
    DefaultSlotsParse();
    TwoSlotItem(start, DefaultDailyTimes, i);
  }

  // =====================================================================
  // process_bulk_upload

  const NoPostsError: string := "No valid posts found in the uploaded file"

  /** Parses the rows, creates the BulkUpload record and its posts. Returns
      the outcome (the record, or the raised error), the record as stored
      (None when no record was created) and the posts stored. `userTimes` is
      the user's daily_post_times, None when the user does not exist. */
  method ProcessBulkUpload(uploadId: int, userId: int, filename: string, rows: seq<Row>, scheduleType: string,
                           startDate: Option<int>, targetPlatforms: seq<string>, now: int,
                           userTimes: Option<seq<string>>)
    returns (result: Result<UploadRecord>, stored: Option<UploadRecord>, posts: seq<NewPost>)
    ensures var parsed := ParsedRows(rows);
      && (stored.None? <==> parsed == [])
      && (parsed == [] ==> result == Err(NoPostsError) && posts == [])
      && (result.Ok? <==>
            parsed != [] && userTimes.Some? &&
            forall j :: 0 <= j < |parsed| ==>
              ScheduledTime(scheduleType, startDate.GetOr(now), DailyTimes(userTimes.value), j).Some?)
      && (result.Ok? ==>
            stored == Some(result.value) && result.value.status == UploadStatus.Completed &&
            result.value.processedPosts == result.value.totalPosts == |parsed| == |posts|)
      && (stored.Some? && result.Err? ==>
            stored.value.status == UploadStatus.Failed && stored.value.processedPosts == 0 && |posts| < |parsed|)
      && (parsed != [] && userTimes.None? ==> result == Err(NoUserError) && posts == [])
      && (parsed != [] && userTimes.Some? && result.Err? ==> result == Err(BadTimeError))
    ensures stored.Some? ==>
      && stored.value.id == uploadId && stored.value.userId == userId && stored.value.name == filename
      && stored.value.totalPosts == |ParsedRows(rows)| && stored.value.startDate == startDate.GetOr(now)
      && stored.value.scheduleType == scheduleType
      && stored.value.targetPlatforms == (if targetPlatforms == [] then AllPlatforms else targetPlatforms)
    ensures forall j :: 0 <= j < |posts| ==>
      posts[j].bulkUploadId == uploadId && posts[j].content == ParsedRows(rows)[j].content
        && posts[j].targetPlatforms == ParsedRows(rows)[j].platforms
  {
    var postsData := ParseRows(rows);
    if postsData == [] {
      return Err(NoPostsError), None, [];
    }
    var bulkUpload := UploadRecord(uploadId, userId, filename, |postsData|, 0, UploadStatus.Processing,
                                   startDate.GetOr(now), scheduleType,
                                   if targetPlatforms == [] then AllPlatforms else targetPlatforms);
    var created, error := CreateScheduledPosts(bulkUpload, postsData, startDate, now, userTimes);
    posts := created;
    if error.Some? {
      bulkUpload := bulkUpload.(status := UploadStatus.Failed);
      return Err(error.value), Some(bulkUpload), posts;
    }
    bulkUpload := bulkUpload.(status := UploadStatus.Completed, processedPosts := |postsData|);
    return Ok(bulkUpload), Some(bulkUpload), posts;
  }

  // =====================================================================
  // _process_single_post

  /** An active social account of the post's owner. */
  datatype SocialAccount = SocialAccount(platform: string, accessToken: string)

  /** What social_media.post_content did: returned a reply, or raised. */
  datatype CallOutcome = Returned(reply: Reply) | Raised(message: string)

  /** An entry of post.posting_results. */
  datatype PlatformResult =
    | PostedResult(platformPostId: Option<string>, shareUrl: Option<string>)
    | FailedResult(error: string)

  /** One call of the platform publisher. */
  datatype PublishCall = PublishCall(platform: string, accessToken: string, content: string, mediaPath: Option<string>)

  /** {acc.platform: acc for acc in accounts}: a later account of a platform
      replaces an earlier one. */
  function AccountMap(accounts: seq<SocialAccount>): map<string, SocialAccount> {
    if accounts == [] then map[]
    else AccountMap(accounts[..|accounts| - 1])[accounts[|accounts| - 1].platform := accounts[|accounts| - 1]]
  }

  /** A platform is in the map exactly when some account is for it. */
  lemma {:induction false} AccountMapKeys(accounts: seq<SocialAccount>, p: string)
    ensures p in AccountMap(accounts) <==> exists k :: 0 <= k < |accounts| && accounts[k].platform == p
  {
    if accounts != [] {
      var n := |accounts| - 1;
      var init := accounts[..n];
      AccountMapKeys(init, p);
      if p != accounts[n].platform && exists k :: 0 <= k < |accounts| && accounts[k].platform == p {
        var k :| 0 <= k < |accounts| && accounts[k].platform == p;
        assert init[k].platform == p;
      }
    }
  }

  /** A platform in the map maps to the last account for it. */
  lemma {:induction false} AccountMapLast(accounts: seq<SocialAccount>, p: string)
    requires p in AccountMap(accounts)
    ensures exists k :: (0 <= k < |accounts| && AccountMap(accounts)[p] == accounts[k] &&
                         forall j :: k < j < |accounts| ==> accounts[j].platform != p)
  {
    var n := |accounts| - 1;
    var init := accounts[..n];
    if p == accounts[n].platform {
      assert AccountMap(accounts)[p] == accounts[n];
    } else {
      AccountMapLast(init, p);
      var k :| 0 <= k < |init| && AccountMap(init)[p] == init[k]
        && forall j :: k < j < |init| ==> init[j].platform != p;
      forall j | k < j < |accounts| ensures accounts[j].platform != p {
        if j < n {
          assert accounts[j] == init[j];
        }
      }
      assert AccountMap(accounts)[p] == accounts[k];
    }
  }

  function NoAccountError(platform: string): string {
    "No connected " + platform + " account"
  }

  /** The results entry for one target platform. */
  function AttemptResult(platform: string, accounts: map<string, SocialAccount>, outcome: CallOutcome): PlatformResult {
    if platform !in accounts then FailedResult(NoAccountError(platform))
    else
      match outcome
      case Returned(reply) =>
        if reply.success then PostedResult(reply.postId, reply.shareUrl) else FailedResult(ReplyError(reply))
      case Raised(message) => FailedResult(message)
  }

  predicate Succeeded(platform: string, accounts: map<string, SocialAccount>, outcome: CallOutcome) {
    platform in accounts && outcome.Returned? && outcome.reply.success
  }

  /** posting_results after the pass; `outcomes(k)` is what publishing to the
      k-th target returned. */
  function ResultsOf(targets: seq<string>, accounts: map<string, SocialAccount>, outcomes: nat -> CallOutcome)
    : map<string, PlatformResult>
  {
    if targets == [] then map[]
    else
      var k := |targets| - 1;
      ResultsOf(targets[..k], accounts, outcomes)[targets[k] := AttemptResult(targets[k], accounts, outcomes(k))]
  }

  function SuccessCount(targets: seq<string>, accounts: map<string, SocialAccount>, outcomes: nat -> CallOutcome): nat {
    if targets == [] then 0
    else
      var k := |targets| - 1;
      SuccessCount(targets[..k], accounts, outcomes) + if Succeeded(targets[k], accounts, outcomes(k)) then 1 else 0
  }

  /** The publisher calls of the pass, in target order. */
  function CallsOf(targets: seq<string>, accounts: map<string, SocialAccount>, content: string, media: Option<string>)
    : seq<PublishCall>
  {
    if targets == [] then []
    else
      var k := |targets| - 1;
      CallsOf(targets[..k], accounts, content, media) +
        if targets[k] in accounts then [PublishCall(targets[k], accounts[targets[k]].accessToken, content, media)] else []
  }

  /** The post status after the pass. */
  function SinglePostStatus(successes: nat, targetCount: nat): PostStatus {
    if successes > 0 then (if successes == targetCount then Posted else Partial) else PostStatus.Failed
  }

  /** There is one result per distinct target platform, and a target without
      an account gets the no-account failure. */
  lemma {:induction false} ResultsCoverTargets(targets: seq<string>, accounts: map<string, SocialAccount>, outcomes: nat -> CallOutcome)
    ensures ResultsOf(targets, accounts, outcomes).Keys == set p | p in targets
    ensures forall p :: p in targets && p !in accounts ==> ResultsOf(targets, accounts, outcomes)[p] == FailedResult(NoAccountError(p))
  {
    if targets != [] {
      var k := |targets| - 1;
      ResultsCoverTargets(targets[..k], accounts, outcomes);
      assert forall p :: p in targets <==> p in targets[..k] || p == targets[k];
    }
  }

  /** The publisher is called only for targets with an account, with that
      account's token, and for every target when all have one. */
  lemma {:induction false} CallsOnlyConnected(targets: seq<string>, accounts: map<string, SocialAccount>, content: string, media: Option<string>)
    ensures forall c :: c in CallsOf(targets, accounts, content, media) ==>
      c.platform in targets && c.platform in accounts && c.accessToken == accounts[c.platform].accessToken
        && c.content == content && c.mediaPath == media
    ensures |CallsOf(targets, accounts, content, media)| <= |targets|
    ensures (forall p :: p in targets ==> p in accounts) ==> |CallsOf(targets, accounts, content, media)| == |targets|
  {
    if targets != [] {
      var k := |targets| - 1;
      CallsOnlyConnected(targets[..k], accounts, content, media);
      assert forall p :: p in targets[..k] ==> p in targets;
    }
  }

  /** The success count counts the targets that succeeded: it reaches the
      number of targets exactly when all succeeded and is zero exactly when
      none did. */
  lemma {:induction false} SuccessCountMeaning(targets: seq<string>, accounts: map<string, SocialAccount>, outcomes: nat -> CallOutcome)
    ensures SuccessCount(targets, accounts, outcomes) <= |targets|
    ensures SuccessCount(targets, accounts, outcomes) == |targets| <==>
      forall k :: 0 <= k < |targets| ==> Succeeded(targets[k], accounts, outcomes(k))
    ensures SuccessCount(targets, accounts, outcomes) == 0 <==>
      forall k :: 0 <= k < |targets| ==> !Succeeded(targets[k], accounts, outcomes(k))
  {
    if targets != [] {
      var n := |targets| - 1;
      SuccessCountMeaning(targets[..n], accounts, outcomes);
      assert forall k :: 0 <= k < n ==> targets[..n][k] == targets[k];
    }
  }

  /** The status rules of the pass: posted iff there were targets and all
      succeeded, partial iff some but not all did, failed iff none did. */
  lemma SinglePostStatusRules(targets: seq<string>, accounts: map<string, SocialAccount>, outcomes: nat -> CallOutcome)
    ensures var st := SinglePostStatus(SuccessCount(targets, accounts, outcomes), |targets|);
      && (st == Posted <==> |targets| > 0 && forall k :: 0 <= k < |targets| ==> Succeeded(targets[k], accounts, outcomes(k)))
      && (st == Partial <==>
            (exists k :: 0 <= k < |targets| && Succeeded(targets[k], accounts, outcomes(k))) &&
            (exists k :: 0 <= k < |targets| && !Succeeded(targets[k], accounts, outcomes(k))))
      && (st == PostStatus.Failed <==> forall k :: 0 <= k < |targets| ==> !Succeeded(targets[k], accounts, outcomes(k)))
  {
    SuccessCountMeaning(targets, accounts, outcomes);
  }

  /** A post as the polling service sees it (the fields it reads and writes). */
  class ServicePost {
    const userId: int
    const content: string
    const targetPlatforms: seq<string>
    const mediaUrl: Option<string>
    var status: PostStatus
    var postedAt: Option<int>
    var postingResults: map<string, PlatformResult>

    constructor (userId: int, content: string, targetPlatforms: seq<string>, mediaUrl: Option<string>)
      ensures this.userId == userId && this.content == content
      ensures this.targetPlatforms == targetPlatforms && this.mediaUrl == mediaUrl
      ensures status == Scheduled && postedAt == None && postingResults == map[]
    {
      this.userId := userId;
      this.content := content;
      this.targetPlatforms := targetPlatforms;
      this.mediaUrl := mediaUrl;
      status := Scheduled;
      postedAt := None;
      postingResults := map[];
    }
  }

  /** Publishes a post to each target platform once, without retry, and
      records the results and the post's status. `accounts` are the owner's
      active accounts; `outcomes(k)` is what publishing to the k-th target
      gives. Returns the publisher calls made. */
  method ProcessSinglePost(post: ServicePost, accounts: seq<SocialAccount>, outcomes: nat -> CallOutcome, now: int)
    returns (calls: seq<PublishCall>)
    modifies post
    ensures post.postingResults == ResultsOf(post.targetPlatforms, AccountMap(accounts), outcomes)
    ensures post.status == SinglePostStatus(SuccessCount(post.targetPlatforms, AccountMap(accounts), outcomes), |post.targetPlatforms|)
    ensures post.postedAt == if SuccessCount(post.targetPlatforms, AccountMap(accounts), outcomes) > 0 then Some(now) else old(post.postedAt)
    ensures calls == CallsOf(post.targetPlatforms, AccountMap(accounts), post.content, post.mediaUrl)
  {
    post.status := Posting;
    var results: map<string, PlatformResult> := map[];
    var successCount: nat := 0;
    var accountMap := AccountMap(accounts);
    var targets := post.targetPlatforms;
    calls := [];
    for k := 0 to |targets|
      invariant results == ResultsOf(targets[..k], accountMap, outcomes)
      invariant successCount == SuccessCount(targets[..k], accountMap, outcomes)
      invariant calls == CallsOf(targets[..k], accountMap, post.content, post.mediaUrl)
    {
      var platform := targets[k];
      assert targets[..k + 1][..k] == targets[..k];
      if platform !in accountMap {
        results := results[platform := FailedResult(NoAccountError(platform))];
        continue;
      }
      var account := accountMap[platform];
      calls := calls + [PublishCall(platform, account.accessToken, post.content, post.mediaUrl)];
      match outcomes(k) {
        case Returned(reply) =>
          if reply.success {
            results := results[platform := PostedResult(reply.postId, reply.shareUrl)];
            successCount := successCount + 1;
          } else {
            results := results[platform := FailedResult(ReplyError(reply))];
          }
        case Raised(message) =>
          results := results[platform := FailedResult(message)];
      }
    }
    assert targets[..|targets|] == targets;
    post.postingResults := results;
    if successCount > 0 {
      post.status := if successCount == |targets| then Posted else Partial;
      post.postedAt := Some(now);
    } else {
      post.status := PostStatus.Failed;
    }
  }
}
