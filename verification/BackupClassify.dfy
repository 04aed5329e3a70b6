/** The hardcoded denied-class matcher of the backup dry run, over canonical paths and file names. */
module BackupClassify {
  import opened Text

  /** The ten denied classes; `Name` gives the identifier the manifest lists. */
  datatype Class =
    | CredentialStore | BrowserProfile | MailboxCache | PrivateKeyMaterial | CloudCliTokenStore
    | PasswordManagerVault | DpapiStore | RegistryHive | AppTokenStore | ArchiveContainer
  {
    function Name(): string {
      match this
      case CredentialStore => "credential_store"
      case BrowserProfile => "browser_profile"
      case MailboxCache => "mailbox_cache"
      case PrivateKeyMaterial => "private_key_material"
      case CloudCliTokenStore => "cloud_cli_token_store"
      case PasswordManagerVault => "password_manager_vault"
      case DpapiStore => "dpapi_store"
      case RegistryHive => "registry_hive"
      case AppTokenStore => "app_token_store"
      case ArchiveContainer => "archive_container"
    }
  }

  datatype Denial = Clear | Denied(kind: Class, archive: bool)

  const ARCHIVE_EXTS: set<string> := {
    ".zip", ".7z", ".rar", ".tar", ".gz", ".tgz", ".bz2", ".tbz2", ".xz", ".txz", ".lz", ".lzma",
    ".zst", ".cab", ".arj",
    ".vhd", ".vhdx", ".vmdk", ".iso", ".img", ".wim", ".dmg", ".pst", ".ost"}

  const PRIVATE_KEY_EXTS: set<string> := {".kdbx", ".pem", ".key", ".pfx", ".ppk", ".ovpn"}

  /** `filepath.Ext`: from the last dot of the last element. */
  function Ext(name: string): string {
    if name == "" || name[|name| - 1] == '/' then ""
    else if name[|name| - 1] == '.' then "."
    else
      var e := Ext(name[..|name| - 1]);
      if e == "" then "" else e + [name[|name| - 1]]
  }

  predicate IsSeparator(c: char) { c == '/' || c == '\\' }

  /** `strings.FieldsFunc` on both separators, with the current field carried along. */
  function Fields(s: string, field: string): seq<string>
    decreases |s|
  {
    if s == "" then (if field == "" then [] else [field])
    else if IsSeparator(s[0]) then (if field == "" then [] else [field]) + Fields(s[1..], "")
    else Fields(s[1..], field + [s[0]])
  }

  function LowerSegments(p: string): seq<string> {
    Fields(ToLower(p), "")
  }

  predicate IsCredentialStore(lower: string, segs: seq<string>) {
    lower == ".git-credentials" || lower == ".npmrc"
    || (lower == "config.json" && ".docker" in segs) || (lower == "credentials" && ".git" in segs)
  }

  predicate IsPrivateKeyMaterial(lower: string, ext: string, segs: seq<string>) {
    || ext in PRIVATE_KEY_EXTS
    || "id_rsa" <= lower || "id_dsa" <= lower || "id_ecdsa" <= lower || "id_ed25519" <= lower
    || lower == "known_hosts" || lower == "authorized_keys"
    || ".ssh" in segs
  }

  predicate IsMailboxCache(ext: string, segs: seq<string>) {
    ext == ".ost" || ext == ".pst" || "thunderbird" in segs || ("outlook" in segs && "microsoft" in segs)
  }

  predicate IsBrowserProfile(lower: string, segs: seq<string>) {
    || lower == "webcachev01.dat" || "user data" in segs
    || (("cookies" in segs || "local storage" in segs || "session storage" in segs)
        && ("chrome" in segs || "edge" in segs || "mozilla" in segs))
  }

  predicate IsCloudCliTokenStore(segs: seq<string>) {
    ".aws" in segs || ".azure" in segs || ".kube" in segs || (".config" in segs && "gcloud" in segs)
  }

  predicate IsPasswordManagerVault(segs: seq<string>) {
    "keepass" in segs || "1password" in segs || "bitwarden" in segs || "lastpass" in segs || "keepassxc" in segs
  }

  predicate IsDpapiStore(segs: seq<string>) {
    "microsoft" in segs && "protect" in segs
  }

  predicate IsRegistryHive(lower: string) {
    lower == "ntuser.dat" || lower == "usrclass.dat"
  }

  predicate IsAppTokenStore(lower: string, segs: seq<string>) {
    || lower == "state.vscdb"
    || ("jetbrains" in segs && Contains(lower, "token"))
    || ("globalstorage" in segs && ("code" in segs || "vscode" in segs))
  }

  function ClassifyDenied(canonPath: string, name: string): Denial {
    var lower, ext, segs := ToLower(name), ToLower(Ext(name)), LowerSegments(canonPath);
    var archive := ext in ARCHIVE_EXTS;
    if IsCredentialStore(lower, segs) then Denied(CredentialStore, archive)
    else if IsPrivateKeyMaterial(lower, ext, segs) then Denied(PrivateKeyMaterial, archive)
    else if IsMailboxCache(ext, segs) then Denied(MailboxCache, archive)
    else if IsBrowserProfile(lower, segs) then Denied(BrowserProfile, archive)
    else if IsCloudCliTokenStore(segs) then Denied(CloudCliTokenStore, archive)
    else if IsPasswordManagerVault(segs) then Denied(PasswordManagerVault, archive)
    else if IsDpapiStore(segs) then Denied(DpapiStore, archive)
    else if IsRegistryHive(lower) then Denied(RegistryHive, archive)
    else if IsAppTokenStore(lower, segs) then Denied(AppTokenStore, archive)
    else if archive then Denied(ArchiveContainer, true)
    else Clear
  }

  /**
   * An archive is always denied, under its more specific class where it has one; the archive class is for archives
   * only.
   */
  lemma ArchivesAreDenied(canonPath: string, name: string)
    ensures var d := ClassifyDenied(canonPath, name);
            && (ToLower(Ext(name)) in ARCHIVE_EXTS <==> d.Denied? && d.archive)
            && (d.Denied? && d.kind == ArchiveContainer ==> d.archive)
            && (ToLower(Ext(name)) in {".pst", ".ost"} ==> d.Denied? && d.archive && d.kind != ArchiveContainer)
  {
  }

  /** The directories that are denied for what they are called, whatever lies in them. */
  predicate DeniedBySegments(segs: seq<string>) {
    || ".ssh" in segs || IsMailboxCache("", segs) || IsBrowserProfile("", segs) || IsCloudCliTokenStore(segs)
    || IsPasswordManagerVault(segs) || IsDpapiStore(segs) || IsAppTokenStore("", segs)
  }

  /** Fields of a longer path: everything below a directory keeps the directory's segments. */
  lemma {:induction false} FieldsBelow(dir: string, rest: string, field: string)
    requires rest != "" && IsSeparator(rest[0])
    ensures Fields(dir + rest, field) == Fields(dir, field) + Fields(rest, "")
    decreases |dir|
  {
    if dir == "" {
      assert dir + rest == rest;
      assert Fields(rest, "") == Fields(rest[1..], "");
    } else {
      assert (dir + rest)[1..] == dir[1..] + rest;
      if IsSeparator(dir[0]) {
        FieldsBelow(dir[1..], rest, "");
      } else {
        FieldsBelow(dir[1..], rest, field + [dir[0]]);
      }
    }
  }

  /** Denial by segment is inherited: no name below such a directory is ever let through. */
  lemma DenialIsInherited(dir: string, rest: string, name: string)
    requires DeniedBySegments(LowerSegments(dir)) && rest != "" && IsSeparator(rest[0])
    ensures ClassifyDenied(dir + rest, name).Denied?
  {
    ToLowerConcat(dir, rest);
    FieldsBelow(ToLower(dir), ToLower(rest), "");
    assert forall s | s in LowerSegments(dir) :: s in LowerSegments(dir + rest);
    assert !Contains("", "token");
  }
}
