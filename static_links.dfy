/** The page-link builder of functions/get_links_from_static.py: from the
    file names of the static directory, every HTML page except the index
    pages becomes a (file name, page name) link. The directory listing is
    a parameter. */
module StaticLinks {
  import opened PyCore

  /** (file name, file name without its '.html' extension). */
  type Link = (string, string)

  const Extension: string := ".html"

  /** A name that yields a link: not an index page, and an HTML file. */
  predicate Qualifies(name: string) {
    !StartsWith(name, "index") && EndsWith(name, Extension)
  }

  /** `file[:-5]`. */
  function Stem(name: string): string
    requires |name| >= 5
  {
    name[..|name| - 5]
  }

  /** The links of `names`, in listing order. Every link names an HTML file
      that is not an index page, and its page name plus '.html' gives the
      file name back. */
  function Links(names: seq<string>): (r: seq<Link>)
    ensures |r| <= |names|
    ensures forall l :: l in r ==> Qualifies(l.0) && l.1 + Extension == l.0
    decreases |names|
  {
    if names == [] then []
    else
      var before := Links(names[..|names| - 1]);
      var file := names[|names| - 1];
      if Qualifies(file) then
        assert file[|file| - 5..] == Extension;
        before + [(file, Stem(file))]
      else before
  }

  /** `get_links_from_static` (lines 4-15) over a given directory listing. */
  method GetLinksFromStatic(names: seq<string>) returns (links: seq<Link>)
    ensures links == Links(names)
  {
    links := [];
    for i := 0 to |names|
      invariant links == Links(names[..i])
    {
      assert names[..i + 1][..i] == names[..i];
      var file := names[i];
      if StartsWith(file, "index") {
        continue;
      }
      if EndsWith(file, Extension) {
        links := links + [(file, file[..|file| - 5])];
      }
    }
    assert names[..|names|] == names;
  }

  /** A link is produced exactly for each qualifying name. */
  lemma {:induction false} LinksExactly(names: seq<string>, l: Link)
    ensures l in Links(names) <==> exists i :: 0 <= i < |names| && Qualifies(names[i]) && l == (names[i], Stem(names[i]))
    decreases |names|
  {
    if names != [] {
      var pre := names[..|names| - 1];
      LinksExactly(pre, l);
      if exists i :: 0 <= i < |names| && Qualifies(names[i]) && l == (names[i], Stem(names[i])) {
        var i :| 0 <= i < |names| && Qualifies(names[i]) && l == (names[i], Stem(names[i]));
        if i < |pre| {
          assert pre[i] == names[i];
        }
      }
      if exists i :: 0 <= i < |pre| && Qualifies(pre[i]) && l == (pre[i], Stem(pre[i])) {
        var i :| 0 <= i < |pre| && Qualifies(pre[i]) && l == (pre[i], Stem(pre[i]));
        assert names[i] == pre[i];
      }
    }
  }

  /** Listing order is kept: the links of a concatenation are the
      concatenation of the links. */
  lemma {:induction false} LinksConcat(a: seq<string>, b: seq<string>)
    ensures Links(a + b) == Links(a) + Links(b)
    decreases |b|
  {
    if b != [] {
      var bPre := b[..|b| - 1];
      assert (a + b)[..|a + b| - 1] == a + bPre;
      LinksConcat(a, bPre);
    } else {
      assert a + b == a;
    }
  }

  /** An index page yields no link, even when it is an HTML file. */
  lemma IndexPagesSkipped(names: seq<string>, name: string)
    requires StartsWith(name, "index")
    ensures forall l :: l in Links(names) ==> l.0 != name
  {
  }

  /** One name on its own: a link exactly when it qualifies. */
  lemma SingleName(name: string)
    ensures Links([name]) == if Qualifies(name) then [(name, Stem(name))] else []
  {
    assert [name][..0] == [];
  }
}
