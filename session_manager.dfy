/** The session store: one JSON file of cookies per service, named
    `{service}_session.json` inside the session directory. The directory is
    a map from path to file content; a disk failure is an input. */
module SessionManager {
  import opened Wrappers
  import opened Text

  const DefaultSessionDir: string := "sessions"
  const SessionFileSuffix: string := "_session.json"

  /** One cookie as Playwright reports it: attribute name to value. */
  type Cookie = map<string, string>

  /** What a session file holds: a cookie list `json.load` reads back, or
      content it cannot parse. */
  datatype SessionFile = Valid(cookies: seq<Cookie>) | Corrupt

  type Files = map<string, SessionFile>

  /** Where `save_session` fails, when it does: creating the directory or
      opening the file (nothing written), or writing the JSON after the file
      was opened for writing and truncated. */
  datatype SaveFault = NoFault | FailsBeforeOpen | FailsDuringWrite

  /** `session_dir / f"{service_name}_session.json"`. */
  function SessionPath(sessionDir: string, service: string): string {
    JoinPath(sessionDir, service + SessionFileSuffix)
  }

  /** The directory after `save_session`: the file holds the cookies, or
      is left as it was when the failure came before it was opened, or is
      left unreadable when the write broke off. The `OSError` is swallowed. */
  function SaveEffect(files: Files, sessionDir: string, service: string,
                      cookies: seq<Cookie>, fault: SaveFault): Files
  {
    var path := SessionPath(sessionDir, service);
    match fault
    case NoFault => files[path := Valid(cookies)]
    case FailsBeforeOpen => files
    case FailsDuringWrite => files[path := Corrupt]
  }

  /** What `load_session` returns. `readFails` is an `OSError` while
      reading; every failure reads as `None`. */
  function LoadResult(files: Files, sessionDir: string, service: string, readFails: bool)
    : Option<seq<Cookie>>
  {
    var path := SessionPath(sessionDir, service);
    if path !in files then None
    else if readFails then None
    else match files[path]
      case Valid(cookies) => Some(cookies)
      case Corrupt => None
  }

  /** The directory after `delete_session`: the file is gone unless
      `unlink` fails, which is swallowed. */
  function DeleteEffect(files: Files, sessionDir: string, service: string, unlinkFails: bool): Files {
    var path := SessionPath(sessionDir, service);
    if path in files && !unlinkFails then files - {path} else files
  }

  /** A service name that stays inside the session directory. */
  predicate RelativeName(service: string) {
    service == [] || service[0] != '/'
  }

  /** Distinct services never share a file. */
  lemma SessionPathInjective(sessionDir: string, s1: string, s2: string)
    requires RelativeName(s1) && RelativeName(s2)
    ensures SessionPath(sessionDir, s1) == SessionPath(sessionDir, s2) ==> s1 == s2
  {
    var n1, n2 := s1 + SessionFileSuffix, s2 + SessionFileSuffix;
    assert n1[0] != '/' && n2[0] != '/' by {
      if s1 == [] { assert n1[0] == '_'; } else { assert n1[0] == s1[0]; }
      if s2 == [] { assert n2[0] == '_'; } else { assert n2[0] == s2[0]; }
    }
    if SessionPath(sessionDir, s1) == SessionPath(sessionDir, s2) {
      var k := |SessionPath(sessionDir, s1)| - |n1|;
      assert SessionPath(sessionDir, s1)[k..] == n1;
      assert SessionPath(sessionDir, s2)[k..] == n2;
      assert n1[..|s1|] == s1 && n2[..|s2|] == s2;
    }
  }

  /** Loading after a successful save gives the saved cookies back. */
  lemma SaveLoadRoundTrip(files: Files, sessionDir: string, service: string, cookies: seq<Cookie>)
    ensures LoadResult(SaveEffect(files, sessionDir, service, cookies, NoFault), sessionDir, service, false)
            == Some(cookies)
  {
  }

  /** A later save replaces an earlier one. */
  lemma SaveOverwrites(files: Files, sessionDir: string, service: string, c1: seq<Cookie>, c2: seq<Cookie>)
    ensures var first := SaveEffect(files, sessionDir, service, c1, NoFault);
            SaveEffect(first, sessionDir, service, c2, NoFault)
            == SaveEffect(files, sessionDir, service, c2, NoFault)
  {
  }

  /** A missing or unreadable file, or a failing read, gives `None`; only
      a parsed cookie list gives a value, and then exactly that list. */
  lemma LoadNoneCases(files: Files, sessionDir: string, service: string, readFails: bool)
    ensures var path := SessionPath(sessionDir, service);
            LoadResult(files, sessionDir, service, readFails).Some?
            <==> path in files && files[path].Valid? && !readFails
    ensures var path := SessionPath(sessionDir, service);
            LoadResult(files, sessionDir, service, readFails).Some?
            ==> LoadResult(files, sessionDir, service, readFails).value == files[path].cookies
  {
  }

  /** A save that fails before opening the file leaves the directory as it
      was; one that breaks off while writing leaves nothing loadable. */
  lemma FailedSaveLoadsNothingNew(files: Files, sessionDir: string, service: string, cookies: seq<Cookie>)
    ensures SaveEffect(files, sessionDir, service, cookies, FailsBeforeOpen) == files
    ensures LoadResult(SaveEffect(files, sessionDir, service, cookies, FailsDuringWrite),
                       sessionDir, service, false) == None
  {
  }

  /** After a delete that goes through, the session is gone; deleting it a
      second time changes nothing. */
  lemma DeleteRemovesAndIsIdempotent(files: Files, sessionDir: string, service: string)
    ensures var after := DeleteEffect(files, sessionDir, service, false);
            && SessionPath(sessionDir, service) !in after
            && DeleteEffect(after, sessionDir, service, false) == after
            && LoadResult(after, sessionDir, service, false) == None
  {
  }

  /** Deleting a session that does not exist changes nothing. */
  lemma DeleteAbsentUnchanged(files: Files, sessionDir: string, service: string, unlinkFails: bool)
    requires SessionPath(sessionDir, service) !in files
    ensures DeleteEffect(files, sessionDir, service, unlinkFails) == files
  {
  }

  /** Saving or deleting one service leaves every other service's session
      as it was. */
  lemma ServicesIndependent(files: Files, sessionDir: string, s1: string, s2: string,
                            cookies: seq<Cookie>, fault: SaveFault, unlinkFails: bool, readFails: bool)
    requires RelativeName(s1) && RelativeName(s2) && s1 != s2
    ensures LoadResult(SaveEffect(files, sessionDir, s1, cookies, fault), sessionDir, s2, readFails)
            == LoadResult(files, sessionDir, s2, readFails)
    ensures LoadResult(DeleteEffect(files, sessionDir, s1, unlinkFails), sessionDir, s2, readFails)
            == LoadResult(files, sessionDir, s2, readFails)
    ensures (SessionPath(sessionDir, s2) in SaveEffect(files, sessionDir, s1, cookies, fault))
            == (SessionPath(sessionDir, s2) in files)
  {
    SessionPathInjective(sessionDir, s1, s2);
  }

  /** `SessionManager`: the session directory and the files in it. */
  class SessionStore {
    const sessionDir: string
    var files: Files

    /** A manager over `sessionDir`, whose files are `existing`. */
    constructor (sessionDir: string, existing: Files)
      ensures this.sessionDir == sessionDir && files == existing
    {
      this.sessionDir := sessionDir;
      files := existing;
    }

    /** `save_session`. */
    method SaveSession(service: string, cookies: seq<Cookie>, fault: SaveFault)
      modifies this
      ensures files == SaveEffect(old(files), sessionDir, service, cookies, fault)
    {
      var sessionFile := SessionPath(sessionDir, service);
      if fault == FailsBeforeOpen {
        return;
      }
      if fault == FailsDuringWrite {
        files := files[sessionFile := Corrupt];
        return;
      }
      files := files[sessionFile := Valid(cookies)];
    }

    /** `load_session`. */
    method LoadSession(service: string, readFails: bool) returns (cookies: Option<seq<Cookie>>)
      ensures cookies == LoadResult(files, sessionDir, service, readFails)
    {
      var sessionFile := SessionPath(sessionDir, service);
      if sessionFile !in files {
        return None;
      }
      if readFails {
        return None;
      }
      match files[sessionFile]
      case Valid(c) => cookies := Some(c);
      case Corrupt => cookies := None;
    }

    /** `session_exists`. */
    method SessionExists(service: string) returns (exists_: bool)
      ensures exists_ <==> SessionPath(sessionDir, service) in files
    {
      exists_ := SessionPath(sessionDir, service) in files;
    }

    /** `delete_session`. */
    method DeleteSession(service: string, unlinkFails: bool)
      modifies this
      ensures files == DeleteEffect(old(files), sessionDir, service, unlinkFails)
    {
      var sessionFile := SessionPath(sessionDir, service);
      if sessionFile in files {
        if !unlinkFails {
          files := files - {sessionFile};
        }
      }
    }
  }

  /** Save, check, load and delete on one store: the session exists after
      a successful save and loads the saved cookies; after a delete it no
      longer exists. */
  method SessionLifecycle(store: SessionStore, service: string, cookies: seq<Cookie>)
    returns (existedAfterSave: bool, loaded: Option<seq<Cookie>>, existsAfterDelete: bool)
    modifies store
    ensures existedAfterSave && loaded == Some(cookies) && !existsAfterDelete
  {
    store.SaveSession(service, cookies, NoFault);
    existedAfterSave := store.SessionExists(service);
    loaded := store.LoadSession(service, false);
    store.DeleteSession(service, false);
    existsAfterDelete := store.SessionExists(service);
  }
}
