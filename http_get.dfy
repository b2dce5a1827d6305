// The static file handler of the web server: it checks the URI, maps it
// onto a file of the /www filesystem, picks the content type from the
// extension and answers with the file or with an error status.
module HttpGet {
  import opened Webserver

  /** Longest path the virtual filesystem takes, and the mount point in front of every served file. */
  const MaxVfsPathLength := 30
  const FsBase := "/www"
  const FsBaseSize := 4

  /** The request URI is a C string: it holds no NUL. */
  predicate CString(s: string) {
    forall i :: 0 <= i < |s| ==> s[i] != '\0'
  }

  /**
   * A URI the handler accepts: not longer than 26, a leading '/' and no
   * second one, no '?', '#', '%' or space, and at most 21 characters when
   * ".html" still has to be appended.
   */
  predicate AcceptableUri(uri: string) {
    && |uri| <= MaxVfsPathLength - FsBaseSize
    && |uri| > 0 && uri[0] == '/'
    && (|uri| > 1 ==> '/' !in uri[1..])
    && '?' !in uri && '#' !in uri && '%' !in uri && ' ' !in uri
    && ('.' !in uri ==> |uri| <= MaxVfsPathLength - 5 - FsBaseSize)
  }

  /**
   * The error status for a URI: a URI over 26 characters is 414 and nothing
   * else is looked at; otherwise every failing check overwrites the code,
   * so the last one in the source's order wins.
   */
  function UriError(uri: string): (code: int)
    ensures code in {0, 400, 405, 414}
    ensures code == 0 <==> AcceptableUri(uri)
    ensures |uri| > MaxVfsPathLength - FsBaseSize ==> code == 414
    ensures code == 405 <==> (|uri| <= MaxVfsPathLength - FsBaseSize && '?' in uri && ' ' !in uri && '#' !in uri && '%' !in uri
      && ('.' in uri || |uri| <= MaxVfsPathLength - 5 - FsBaseSize))
  {
    if |uri| > MaxVfsPathLength - FsBaseSize then 414
    else if ' ' in uri then 400
    else if '.' !in uri && |uri| > MaxVfsPathLength - 5 - FsBaseSize then 414
    else if '%' in uri || '#' in uri then 400
    else if '?' in uri then 405
    else if |uri| == 0 || uri[0] != '/' then 400
    else if |uri| > 1 && '/' in uri[1..] then 400
    else 0
  }

  /** The URI checks of default_files_get_handler, one after the other. */
  method CheckUri(uri: string) returns (requestError: int)
    requires CString(uri)
    ensures requestError == UriError(uri)
  {
    requestError := 0;
    if |uri| > MaxVfsPathLength - FsBaseSize {
      requestError := 414;
    } else {
      if |uri| > 1 {
        if '/' in uri[1..] {
          requestError := 400;
        }
      }
      // An empty URI holds only the terminating NUL at index 0.
      if |uri| == 0 || uri[0] != '/' {
        requestError := 400;
      }
      if '?' in uri {
        requestError := 405;
      }
      if '#' in uri {
        requestError := 400;
      }
      if '%' in uri {
        requestError := 400;
      }
      if '.' !in uri && |uri| > MaxVfsPathLength - 5 - FsBaseSize {
        requestError := 414;
      }
      if ' ' in uri {
        requestError := 400;
      }
    }
  }

  /**
   * The file served for an accepted URI: "/" is the index page, any other
   * URI is a file directly under /www, with ".html" added when it has no
   * dot. The path always fits MAXVFSPATHLENGTH and has a dot.
   */
  function ServedPath(uri: string): (path: string)
    requires AcceptableUri(uri)
    ensures |path| <= MaxVfsPathLength
    ensures '.' in path
  {
    if |uri| == 1 then FsBase + "/index.html"
    else FsBase + uri + (if '.' in uri then "" else ".html")
  }

  /** The served path is /www, a slash and a file name with no further slash. */
  lemma ServedPathShape(uri: string)
    requires AcceptableUri(uri)
    ensures var path := ServedPath(uri);
      && |path| > FsBaseSize + 1 && path[..FsBaseSize] == FsBase && path[FsBaseSize] == '/'
      && '/' !in path[FsBaseSize + 1..]
      && (uri == "/" ==> path == "/www/index.html")
      && (uri != "/" ==> path[FsBaseSize..] == uri + (if '.' in uri then "" else ".html"))
  {
    var path := ServedPath(uri);
    if uri != "/" {
      var suffix := if '.' in uri then "" else ".html";
      assert path == FsBase + (uri + suffix);
      assert path[FsBaseSize + 1..] == uri[1..] + suffix;
    }
  }

  /** The index of the first `c` in `s` (strchr). */
  function FirstIndex(s: string, c: char): (i: nat)
    requires c in s
    ensures i < |s| && s[i] == c && c !in s[..i]
  {
    if s[0] == c then 0
    else
      assert c in s[1..] by { var k :| 0 <= k < |s| && s[k] == c; assert s[1..][k - 1] == c; }
      var j := FirstIndex(s[1..], c);
      assert s[..j + 1] == [s[0]] + s[1..][..j];
      j + 1
  }

  /** The extension of a path: everything from its first dot. */
  function Extension(path: string): (ext: string)
    requires '.' in path
    ensures 0 < |ext| <= |path| && ext[0] == '.' && ext == path[|path| - |ext|..]
  {
    path[FirstIndex(path, '.')..]
  }

  /** The content types the handler knows, by extension. */
  const ContentTypes: map<string, string> := map[
    ".html" := "text/html", ".css" := "text/css", ".js" := "text/javascript",
    ".jpg" := "image/jpeg", ".svg" := "image/svg+xml", ".png" := "image/png",
    ".ico" := "image/x-icon"]

  /** The content type set for an extension; an unknown one makes the browser save the file. */
  function ContentType(ext: string): (t: string)
    ensures ext in ContentTypes ==> t == ContentTypes[ext]
    ensures ext !in ContentTypes ==> t == "application/octet-stream"
  {
    if ext == ".html" then "text/html"
    else if ext == ".css" then "text/css"
    else if ext == ".js" then "text/javascript"
    else if ext == ".jpg" then "image/jpeg"
    else if ext == ".svg" then "image/svg+xml"
    else if ext == ".png" then "image/png"
    else if ext == ".ico" then "image/x-icon"
    else "application/octet-stream"
  }

  /** strchr finds the first occurrence: an index holding `c` with no `c` before it is FirstIndex. */
  lemma {:induction false} FirstIndexAt(s: string, c: char, i: nat)
    requires i < |s| && s[i] == c
    requires forall k :: 0 <= k < i ==> s[k] != c
    ensures FirstIndex(s, c) == i
    decreases i
  {
    if i > 0 {
      assert s[0] != c;
      assert c in s[1..] by { assert s[1..][i - 1] == c; }
      FirstIndexAt(s[1..], c, i - 1);
    }
  }

  /**
   * The extension of the served file comes from the URI: ".html" for "/"
   * (the only accepted URI of length 1) and for a URI without a dot, and otherwise the URI from its first dot.
   */
  lemma ServedExtension(uri: string)
    requires AcceptableUri(uri)
    ensures Extension(ServedPath(uri)) == (if |uri| == 1 || '.' !in uri then ".html" else uri[FirstIndex(uri, '.')..])
  {
    if |uri| == 1 {
      IndexPageExtension();
    } else if '.' in uri {
      assert ServedPath(uri) == FsBase + uri + "";
      assert FsBase + uri + "" == FsBase + uri;
      DotExtension(uri);
    } else {
      assert ServedPath(uri) == FsBase + uri + ".html";
      AddedExtension(uri);
    }
  }

  /** A URI with a dot keeps its own extension. */
  lemma DotExtension(uri: string)
    requires '.' in uri
    ensures Extension(FsBase + uri) == uri[FirstIndex(uri, '.')..]
  {
    var path := FsBase + uri;
    var j := FirstIndex(uri, '.');
    assert forall k :: 0 <= k < FsBaseSize + j ==> path[k] != '.' by {
      forall k | 0 <= k < FsBaseSize + j
        ensures path[k] != '.'
      {
        if k >= FsBaseSize {
          assert path[k] == uri[..j][k - FsBaseSize];
        }
      }
    }
    FirstIndexAt(path, '.', FsBaseSize + j);
    assert path[FsBaseSize + j..] == uri[j..];
  }

  /** A URI without a dot gets ".html". */
  lemma AddedExtension(uri: string)
    requires '.' !in uri
    ensures Extension(FsBase + uri + ".html") == ".html"
  {
    var path := FsBase + uri + ".html";
    var n := FsBaseSize + |uri|;
    assert forall k :: 0 <= k < n ==> path[k] != '.' by {
      forall k | 0 <= k < n
        ensures path[k] != '.'
      {
        if k >= FsBaseSize {
          assert path[k] == uri[k - FsBaseSize];
        }
      }
    }
    FirstIndexAt(path, '.', n);
    assert path[n..] == ".html";
  }

  lemma IndexPageExtension()
    ensures Extension(FsBase + "/index.html") == ".html"
  {
    var path := FsBase + "/index.html";
    assert forall k :: 0 <= k < 10 ==> path[k] != '.';
    FirstIndexAt(path, '.', 10);
    assert path[10..] == ".html";
  }

  /** What the handler answers: the file with its content type, or an error response. */
  datatype GetReply =
    | FileSent(path: string, contentType: string, complete: bool)
    | ErrorSent(response: Response)

  /**
   * default_files_get_handler. `fileOpens` is whether fopen of the served
   * path succeeds, `chunksSent` whether every chunk of the file went out,
   * and `errorSent` whether send_http_error succeeded; the result `ok` is
   * ESP_OK. An extension of eight or more characters leaves file_ext
   * unset in the source, so it is excluded.
   */
  method DefaultFilesGet(uri: string, fileOpens: bool, chunksSent: bool, errorSent: bool) returns (reply: GetReply, ok: bool)
    requires CString(uri)
    requires AcceptableUri(uri) && fileOpens ==> |Extension(ServedPath(uri))| < 8
    ensures UriError(uri) != 0 ==> reply == ErrorSent(ErrorResponse(UriError(uri))) && ok == errorSent
    ensures UriError(uri) == 0 && !fileOpens ==> reply == ErrorSent(ErrorResponse(404)) && ok == errorSent
    ensures UriError(uri) == 0 && fileOpens ==>
      reply == FileSent(ServedPath(uri), ContentType(Extension(ServedPath(uri))), chunksSent) && ok == chunksSent
  {
    var requestError := CheckUri(uri);
    if requestError == 0 {
      var filename := FsBase;
      if |uri| == 1 {
        filename := filename + "/index.html";
      } else {
        filename := filename + uri;
        if '.' !in uri {
          filename := filename + ".html";
        } else {
          assert filename + "" == filename;
        }
      }
      assert filename == ServedPath(uri);
      if !fileOpens {
        requestError := 404;
      } else {
        var fileExt := Extension(filename);
        var contentType := ContentType(fileExt);
        if !chunksSent {
          return FileSent(filename, contentType, false), false;
        }
        reply := FileSent(filename, contentType, true);
      }
    }
    if requestError == 0 {
      ok := true;
    } else {
      reply := ErrorSent(ErrorResponse(requestError));
      ok := errorSent;
    }
  }
}
