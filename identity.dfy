/** How a profile is named: the user slug the comment filter looks for
    (linkedin_scraper.py, LinkedInScraper.__init__), the profile id taken
    from a profile URL (linkedin_scraper.py, run_and_save; main.py,
    scrape_profile and _run_scraper_task), the profile file named after it
    and the id read back from a file path (main.py, _slug_from_path). */
module Identity {
  import opened Strings
  import opened Wrappers

  /** The regular expression `/in/([^/]+)` can match at `p`: "/in/" starts
      there and is followed by at least one character other than '/'. */
  predicate SlugStartsAt(url: string, p: nat) {
    p + 5 <= |url| && url[p..p + 4] == "/in/" && url[p + 4] != '/'
  }

  /** The leftmost position at or after `p` where the expression matches. */
  function FirstSlugStart(url: string, p: nat): (r: Option<nat>)
    ensures r.Some? ==>
      p <= r.value && SlugStartsAt(url, r.value) &&
      forall q :: p <= q < r.value ==> !SlugStartsAt(url, q)
    ensures r.None? ==> forall q :: p <= q ==> !SlugStartsAt(url, q)
    decreases |url| - p
  {
    if p + 5 > |url| then None
    else if SlugStartsAt(url, p) then Some(p)
    else FirstSlugStart(url, p + 1)
  }

  /** The captured group of a match at `p`: the longest run of characters
      other than '/' after "/in/". */
  function SlugAt(url: string, p: nat): (slug: string)
    requires SlugStartsAt(url, p)
    ensures slug != [] && forall k :: 0 <= k < |slug| ==> slug[k] != '/'
    ensures p + 4 + |slug| <= |url| && url[p + 4..p + 4 + |slug|] == slug
    ensures p + 4 + |slug| == |url| || url[p + 4 + |slug|] == '/'
  {
    var rest := url[p + 4..];
    assert rest[0] == url[p + 4];
    rest[..IndexOf(rest, '/')]
  }

  /** `match.group(1) if match else ""` for `re.search(r"/in/([^/]+)", url)`. */
  function UserSlug(url: string): (slug: string)
    ensures forall k :: 0 <= k < |slug| ==> slug[k] != '/'
    ensures slug == [] <==> forall q :: 0 <= q ==> !SlugStartsAt(url, q)
  {
    match FirstSlugStart(url, 0)
    case None => ""
    case Some(p) => SlugAt(url, p)
  }

  /** The slug of a profile URL is the path segment after "/in/". */
  lemma UserSlugOfProfileUrl(host: string, slug: string, rest: string)
    requires forall q :: 0 <= q ==> !SlugStartsAt(host, q)
    requires |host| >= 3 && host[|host| - 1] != '/' && host[|host| - 3..] != "/in"
    requires slug != [] && forall k :: 0 <= k < |slug| ==> slug[k] != '/'
    ensures UserSlug(host + "/in/" + slug + "/" + rest) == slug
  {
    var tail := slug + "/" + rest;
    var url := host + "/in/" + slug + "/" + rest;
    assert url == host + ("/in/" + tail);
    forall q | 0 <= q < |host|
      ensures !SlugStartsAt(url, q)
    {
      NoSlugInHost(host, tail, q);
    }
    assert SlugStartsAt(url, |host|) by {
      assert url[|host|..|host| + 4] == "/in/";
      assert url[|host| + 4] == slug[0];
    }
    FirstSlugStartAt(url, 0, |host|);
    SlugAtIs(url, |host|, slug);
  }

  /** No match of the expression starts inside the host part. */
  lemma NoSlugInHost(host: string, tail: string, q: nat)
    requires forall q :: 0 <= q ==> !SlugStartsAt(host, q)
    requires |host| >= 3 && host[|host| - 1] != '/' && host[|host| - 3..] != "/in"
    requires q < |host|
    ensures !SlugStartsAt(host + ("/in/" + tail), q)
  {
    var url := host + ("/in/" + tail);
    var p := |host|;
    assert url[p] == '/';
    if q + 5 <= p {
      assert url[q..q + 4] == host[q..q + 4];
      assert url[q + 4] == host[q + 4];
      assert !SlugStartsAt(host, q);
    } else if q + 5 <= |url| {
      if q + 1 == p {
        assert url[q..q + 4][0] == host[q];
      } else if q + 2 == p {
        assert url[q..q + 4][2] == url[p];
      } else if q + 3 == p {
        assert url[q..q + 4][..3] == host[p - 3..];
      } else {
        assert url[q + 4] == url[p];
      }
    }
  }

  /** The search from `start` finds `p` when the expression matches at `p`
      and at no earlier position from `start` on. */
  lemma {:induction false} FirstSlugStartAt(url: string, start: nat, p: nat)
    requires start <= p && SlugStartsAt(url, p)
    requires forall q :: start <= q < p ==> !SlugStartsAt(url, q)
    ensures FirstSlugStart(url, start) == Some(p)
    decreases p - start
  {
    if start < p {
      FirstSlugStartAt(url, start + 1, p);
    }
  }

  /** The captured group ends at the first '/' after "/in/". */
  lemma SlugAtIs(url: string, p: nat, slug: string)
    requires SlugStartsAt(url, p)
    requires slug != [] && forall k :: 0 <= k < |slug| ==> slug[k] != '/'
    requires p + 4 + |slug| < |url| && url[p + 4..p + 4 + |slug|] == slug
    requires url[p + 4 + |slug|] == '/'
    ensures SlugAt(url, p) == slug
  {
    var rest := url[p + 4..];
    assert rest[|slug|] == '/';
    assert forall k :: 0 <= k < |slug| ==> rest[k] == slug[k];
    IndexOfAt(rest, '/', |slug|);
    assert rest[..|slug|] == slug;
  }

  /** `url.strip('/').split('/')[-1].split('?')[0]`: the last path segment
      of the URL, cut at the first '?'. */
  function ProfileId(url: string): (id: string)
    ensures forall k :: 0 <= k < |id| ==> id[k] != '/' && id[k] != '?'
  {
    var segments := Split(StripChar(url, '/'), '/');
    var last := segments[|segments| - 1];
    var id := Split(last, '?')[0];
    assert forall k :: 0 <= k < |id| ==> id[k] != '/' by {
      IdIsPrefixOf(last, '?');
    }
    id
  }

  /** The first piece of a split is a prefix of the input. */
  lemma IdIsPrefixOf(s: string, c: char)
    ensures |Split(s, c)[0]| <= |s| && Split(s, c)[0] == s[..|Split(s, c)[0]|]
  {
  }

  /** A profile URL, with or without a trailing slash, names the profile
      by its last segment. */
  lemma ProfileIdOfUrl(base: string, id: string, trailingSlash: bool)
    requires base != [] && base[0] != '/'
    requires id != [] && forall k :: 0 <= k < |id| ==> id[k] != '/' && id[k] != '?'
    ensures ProfileId(base + "/" + id + (if trailingSlash then "/" else "")) == id
  {
    StripProfileUrl(base, id, trailingSlash);
    LastSegment(base, id);
    SplitWithout(id, '?');
  }

  /** Stripping '/' from such a URL removes only the trailing slash. */
  lemma StripProfileUrl(base: string, id: string, trailingSlash: bool)
    requires base != [] && base[0] != '/'
    requires id != [] && forall k :: 0 <= k < |id| ==> id[k] != '/'
    ensures StripChar(base + "/" + id + (if trailingSlash then "/" else ""), '/') == base + "/" + id
  {
    var core := base + "/" + id;
    assert core[0] == base[0] && core[|core| - 1] == id[|id| - 1];
    StripCharKeeps(core, '/');
    if trailingSlash {
      var url := core + "/";
      assert url[0] == base[0] && url[|url| - 1] == '/';
      assert url[..|url| - 1] == core;
      StripCharDropsLast(url, '/');
    } else {
      assert core + "" == core;
    }
  }

  lemma StripCharKeeps(s: string, c: char)
    requires s != [] && s[0] != c && s[|s| - 1] != c
    ensures StripChar(s, c) == s
  {
  }

  lemma StripCharDropsLast(s: string, c: char)
    requires s != [] && s[0] != c && s[|s| - 1] == c
    ensures StripChar(s, c) == StripChar(s[..|s| - 1], c)
  {
  }

  /** The last '/'-separated segment of `base/id` is `id`. */
  lemma LastSegment(base: string, id: string)
    requires forall k :: 0 <= k < |id| ==> id[k] != '/'
    ensures var segments := Split(base + "/" + id, '/'); segments[|segments| - 1] == id
  {
    SplitAround(base, '/', id);
    assert base + "/" + id == base + ['/'] + id;
    SplitWithout(id, '/');
  }

  /** A query string after the trailing slash leaves an empty id: the last
      segment is then the query itself, which starts with '?'. */
  lemma ProfileIdWithQueryAfterSlash(base: string, id: string, query: string)
    requires base != [] && base[0] != '/'
    requires forall k :: 0 <= k < |query| ==> query[k] != '/'
    ensures ProfileId(base + "/" + id + "/?" + query) == ""
  {
    var head := base + "/" + id;
    var tail := "?" + query;
    var url := head + "/" + tail;
    assert base + "/" + id + "/?" + query == url;
    assert url == head + ['/'] + tail;
    assert url[|url| - 1] != '/';
    assert StripChar(url, '/') == url;
    SplitAround(head, '/', tail);
    SplitWithout(tail, '/');
    var segments := Split(url, '/');
    assert segments == Split(head, '/') + [tail];
    assert segments[|segments| - 1] == tail;
    IndexOfAt(tail, '?', 0);
    SplitUnfold(tail, '?');
    assert Split(tail, '?')[0] == tail[..0] == "";
  }

  const ProfileFilePrefix: string := "linkedin_profile_"
  const ProfileFileSuffix: string := ".json"

  /** `f'linkedin_profile_{profile_name}.json'`. */
  function ProfileFileName(id: string): string {
    ProfileFilePrefix + id + ProfileFileSuffix
  }

  /** os.path.join(directory, name) for a relative name. */
  function PathJoin(directory: string, name: string): string {
    if directory == [] || directory[|directory| - 1] == '/' then directory + name
    else directory + "/" + name
  }

  /** os.path.basename: the text after the last '/'. */
  function Basename(path: string): (name: string)
    ensures |name| <= |path|
    ensures forall k :: 0 <= k < |name| ==> name[k] != '/'
  {
    if path == [] || path[|path| - 1] == '/' then []
    else Basename(path[..|path| - 1]) + [path[|path| - 1]]
  }

  /** The file-name prefix and suffix cannot overlap: a name that starts
      with one and ends with the other is at least as long as both. */
  lemma PrefixSuffixApart(name: string)
    requires StartsWith(name, ProfileFilePrefix) && EndsWith(name, ProfileFileSuffix)
    ensures |ProfileFilePrefix| + |ProfileFileSuffix| <= |name|
  {
    var d := |name| - |ProfileFileSuffix|;
    assert name[d] == name[d..][0] == '.';
    assert forall k :: 0 <= k < |ProfileFilePrefix| ==> ProfileFilePrefix[k] != '.';
    assert forall k :: 0 <= k < |ProfileFilePrefix| ==> name[k] == ProfileFilePrefix[k];
  }

  /** _slug_from_path: the part of the base name between the prefix and the
      suffix of a profile file name, or the whole base name otherwise. */
  function SlugFromPath(path: string): (slug: string)
    ensures var name := Basename(path);
      if StartsWith(name, ProfileFilePrefix) && EndsWith(name, ProfileFileSuffix)
      then ProfileFileName(slug) == name
      else slug == name
  {
    var name := Basename(path);
    if StartsWith(name, ProfileFilePrefix) && EndsWith(name, ProfileFileSuffix) then
      PrefixSuffixApart(name);
      var slug := name[|ProfileFilePrefix|..|name| - |ProfileFileSuffix|];
      assert name == name[..|ProfileFilePrefix|] + slug + name[|name| - |ProfileFileSuffix|..];
      slug
    else name
  }

  /** The base name of a path that ends in `name` right after a '/' (or
      that is `name`) is `name`. */
  lemma {:induction false} BasenameAfterSlash(front: string, name: string)
    requires front == [] || front[|front| - 1] == '/'
    requires forall k :: 0 <= k < |name| ==> name[k] != '/'
    ensures Basename(front + name) == name
    decreases |name|
  {
    if name != [] {
      var path := front + name;
      var init := name[..|name| - 1];
      assert path[..|path| - 1] == front + init;
      BasenameAfterSlash(front, init);
      assert init + [name[|name| - 1]] == name;
    } else {
      assert front + name == front;
    }
  }

  /** The base name of a joined path is the joined name. */
  lemma BasenameOfJoin(directory: string, name: string)
    requires forall k :: 0 <= k < |name| ==> name[k] != '/'
    ensures Basename(PathJoin(directory, name)) == name
  {
    if directory == [] || directory[|directory| - 1] == '/' {
      BasenameAfterSlash(directory, name);
    } else {
      assert directory + "/" + name == (directory + "/") + name;
      BasenameAfterSlash(directory + "/", name);
    }
  }

  /** Reading the id back from the path of the file written for it gives
      the id, for any id without '/'. */
  lemma SlugFromFileRoundTrip(directory: string, id: string)
    requires forall k :: 0 <= k < |id| ==> id[k] != '/'
    ensures SlugFromPath(PathJoin(directory, ProfileFileName(id))) == id
  {
    var name := ProfileFileName(id);
    assert forall k :: 0 <= k < |name| ==> name[k] != '/' by {
      forall k | 0 <= k < |name|
        ensures name[k] != '/'
      {
        if k < |ProfileFilePrefix| {
          assert name[k] == ProfileFilePrefix[k];
        } else if k < |ProfileFilePrefix| + |id| {
          assert name[k] == id[k - |ProfileFilePrefix|];
        } else {
          assert name[k] == ProfileFileSuffix[k - |ProfileFilePrefix| - |id|];
        }
      }
    }
    BasenameOfJoin(directory, name);
    assert name[..|ProfileFilePrefix|] == ProfileFilePrefix;
    assert name[|name| - |ProfileFileSuffix|..] == ProfileFileSuffix;
    var slug := SlugFromPath(PathJoin(directory, name));
    assert ProfileFilePrefix + slug + ProfileFileSuffix == ProfileFilePrefix + id + ProfileFileSuffix;
    assert slug == (ProfileFilePrefix + slug + ProfileFileSuffix)[|ProfileFilePrefix|..|ProfileFilePrefix| + |slug|];
  }

  /** A base name that is not a profile file name is returned as it is. */
  lemma SlugFromOtherFile(directory: string, name: string)
    requires forall k :: 0 <= k < |name| ==> name[k] != '/'
    requires !StartsWith(name, ProfileFilePrefix) || !EndsWith(name, ProfileFileSuffix)
    ensures SlugFromPath(PathJoin(directory, name)) == name
  {
    BasenameOfJoin(directory, name);
  }

  /** `https://www.linkedin.com/in/jane-doe/` names the profile `jane-doe`. */
  lemma JaneDoeProfileId(url: string)
    requires url == "https://www.linkedin.com/in/jane-doe/"
    ensures ProfileId(url) == "jane-doe"
  {
    JaneDoeUrlParts();
    ProfileIdOfUrl("https://www.linkedin.com/in", "jane-doe", true);
  }

  /** The example URL is a base, a slash, the id and a trailing slash. */
  lemma JaneDoeUrlParts()
    ensures "https://www.linkedin.com/in/jane-doe/"
         == "https://www.linkedin.com/in" + "/" + "jane-doe" + "/"
  {
  }
}
