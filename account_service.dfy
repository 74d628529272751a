/** The saved browser sessions of `account_service.py`: one JSON file per site in a
    sessions directory, named after the site's domain. The directory is the map
    `files` from file name to stored state. `urlparse(...).netloc` is a parameter
    `netloc`, and the order `os.listdir` reports is a parameter `listing`. */
module Accounts {

  import opened Wrappers
  import opened Text
  import opened Json

  const Suffix: string := ".json"

  /** The characters of a domain that cannot appear in a file name become '_'. */
  function Sanitize(domain: string): (r: string)
    ensures |r| == |domain|
    ensures forall k :: 0 <= k < |r| ==> r[k] != ':' && r[k] != '/'
  {
    ReplaceChar(ReplaceChar(domain, ':', '_'), '/', '_')
  }

  /** `_get_domain_filename`: a URL is reduced to its network location, a bare domain
      is taken as it is, and the sanitised domain gets the ".json" suffix. */
  function DomainFilename(urlOrDomain: string, netloc: string -> string): string {
    var domain := if Contains(urlOrDomain, "://") then netloc(urlOrDomain) else urlOrDomain;
    Sanitize(domain) + Suffix
  }

  /** A string without ':' does not contain "://". */
  lemma NoColonNoScheme(s: string)
    requires forall k :: 0 <= k < |s| ==> s[k] != ':'
    ensures !Contains(s, "://")
  {
    forall i ensures !OccursAt(s, "://", i) {
      if 0 <= i && i + 3 <= |s| {
        assert s[i..i + 3][0] == s[i];
      }
    }
  }

  /** The file name ends with ".json" and holds neither ':' nor '/'. */
  lemma FilenameShape(urlOrDomain: string, netloc: string -> string)
    ensures var f := DomainFilename(urlOrDomain, netloc);
      EndsWith(f, Suffix) && forall k :: 0 <= k < |f| ==> f[k] != ':' && f[k] != '/'
  {
    var f := DomainFilename(urlOrDomain, netloc);
    assert f[|f| - 5..] == Suffix;
  }

  /** A bare domain, one without "://", is used character by character, with ':' and
      '/' turned into '_'. */
  lemma BareDomainFilename(domain: string, netloc: string -> string)
    requires !Contains(domain, "://")
    ensures var f := DomainFilename(domain, netloc);
      |f| == |domain| + 5 && EndsWith(f, Suffix)
      && forall k :: 0 <= k < |domain| ==>
           f[k] == (if domain[k] == ':' || domain[k] == '/' then '_' else domain[k])
  {
  }

  /** The name a listed file stands for: its name without the suffix. */
  function AccountName(filename: string): string
    requires EndsWith(filename, Suffix)
  {
    filename[..|filename| - 5]
  }

  /** Listing an account and asking for its file again gives back the same file: the
      listed name has no ':' left, so it is taken as a bare domain, and sanitising it
      changes nothing. */
  lemma ListedNameRoundTrip(urlOrDomain: string, netloc: string -> string)
    ensures var f := DomainFilename(urlOrDomain, netloc);
      EndsWith(f, Suffix) && DomainFilename(AccountName(f), netloc) == f
  {
    FilenameShape(urlOrDomain, netloc);
    var f := DomainFilename(urlOrDomain, netloc);
    var name := AccountName(f);
    assert forall k :: 0 <= k < |name| ==> name[k] == f[k];
    NoColonNoScheme(name);
    assert Sanitize(name) == name;
    assert name + Suffix == f;
  }

  /** The accounts `list_accounts` reports for a directory listing, in listing order:
      each ".json" file without its suffix; other files are skipped. */
  function AccountNames(listing: seq<string>): (names: seq<string>)
    ensures |names| <= |listing|
  {
    if listing == [] then []
    else
      var front := listing[..|listing| - 1];
      var last := listing[|listing| - 1];
      AccountNames(front) + (if EndsWith(last, Suffix) then [AccountName(last)] else [])
  }

  /** A name is listed exactly when the listing holds that name plus ".json". */
  lemma {:induction false} AccountNamesExactly(listing: seq<string>, name: string)
    ensures name in AccountNames(listing) <==> name + Suffix in listing
  {
    if listing != [] {
      var front := listing[..|listing| - 1];
      var last := listing[|listing| - 1];
      AccountNamesExactly(front, name);
      assert listing == front + [last];
      if EndsWith(last, Suffix) {
        assert last == AccountName(last) + Suffix;
        assert name == AccountName(last) <==> name + Suffix == last;
      } else {
        assert EndsWith(name + Suffix, Suffix) by {
          assert (name + Suffix)[|name|..] == Suffix;
        }
      }
    }
  }

  /** The sessions directory. */
  class SessionDirectory {
    var files: map<string, Object>

    constructor ()
      ensures files == map[]
    {
      files := map[];
    }

    /** `save_session`: the state is written to the site's file, replacing any older one. */
    method SaveSession(domain: string, storageState: Object, netloc: string -> string) returns (saved: bool)
      modifies this
      ensures saved
      ensures files == old(files)[DomainFilename(domain, netloc) := storageState]
    {
      var filename := DomainFilename(domain, netloc);
      files := files[filename := storageState];
      saved := true;
    }

    /** `get_session_path`: the site's file, when it exists. */
    function GetSessionPath(urlOrDomain: string, netloc: string -> string): (path: Option<string>)
      reads this
      ensures path.Some? <==> DomainFilename(urlOrDomain, netloc) in files
      ensures path.Some? ==> path.value == DomainFilename(urlOrDomain, netloc)
    {
      var filename := DomainFilename(urlOrDomain, netloc);
      if filename in files then Some(filename) else None
    }

    /** `delete_session`: removes the site's file and reports whether there was one. */
    method DeleteSession(domain: string, netloc: string -> string) returns (deleted: bool)
      modifies this
      ensures deleted <==> DomainFilename(domain, netloc) in old(files)
      ensures files == old(files) - {DomainFilename(domain, netloc)}
    {
      var path := GetSessionPath(domain, netloc);
      if path.Some? {
        files := files - {path.value};
        deleted := true;
      } else {
        deleted := false;
      }
    }

    /** `list_accounts`, given the order in which `os.listdir` reports the files. */
    method ListAccounts(listing: seq<string>) returns (sessions: seq<string>)
      requires forall f :: f in listing <==> f in files
      ensures sessions == AccountNames(listing)
      ensures forall name :: name in sessions <==> name + Suffix in files
    {
      sessions := [];
      var i := 0;
      while i < |listing|
        invariant 0 <= i <= |listing|
        invariant sessions == AccountNames(listing[..i])
      {
        var filename := listing[i];
        assert listing[..i + 1][..i] == listing[..i];
        if EndsWith(filename, Suffix) {
          sessions := sessions + [filename[..|filename| - 5]];
        }
        i := i + 1;
      }
      assert listing[..i] == listing;
      forall name ensures name in sessions <==> name + Suffix in files {
        AccountNamesExactly(listing, name);
      }
    }
  }

  /** A saved session is listed under its sanitised domain and found again from the
      listed name. */
  lemma SavedSessionIsListed(files: map<string, Object>, domain: string, state: Object,
                             netloc: string -> string, listing: seq<string>)
    requires forall f :: f in listing <==> f in files[DomainFilename(domain, netloc) := state]
    ensures var f := DomainFilename(domain, netloc);
      EndsWith(f, Suffix) && AccountName(f) in AccountNames(listing)
      && DomainFilename(AccountName(f), netloc) == f
  {
    var f := DomainFilename(domain, netloc);
    ListedNameRoundTrip(domain, netloc);
    assert AccountName(f) + Suffix == f;
    AccountNamesExactly(listing, AccountName(f));
  }
}
