/**
 * `DataImportFeature`: importing a password-protected export archive into the local store.
 *
 * `importArchive` checks the password, extracts the export entry, decodes it as a list of
 * text-only records and writes one `Password` per record whose realm lookup succeeds, each in
 * its own write. The ZIP library, the file system, the JSON decoder, primary-key generation
 * and the Realm lookup are foreign calls; they are given to the model as an `Environment` of
 * oracles. The store is a
 * class whose record list the import appends to, and the two import methods are proved to
 * produce exactly the outcome of the pure functions `ImportNewPasswordsOutcome` and
 * `ImportArchiveOutcome`, whose properties are proved as lemmas.
 */
module DataImport {
  import opened Optional
  import opened SwiftConversions

  newtype byte = x: int | 0 <= x < 256

  /** Foundation's `Data`. */
  type Data = seq<byte>

  /** One record of the export file, every field as text. */
  datatype PasswordJson = PasswordJson(
    pinned: string,
    iconValue: string,
    secret: string,
    issuer: string,
    counter: string,
    account: string,
    iconType: string,
    algorithm: string,
    kind: string,
    digits: string,
    timer: string)

  /** The stored credential the import creates. */
  datatype Password = Password(
    id: int,
    issuer: string,
    account: string,
    iconType: string,
    iconValue: string,
    secret: string,
    algorithm: string,
    digits: int,
    kind: string,
    timer: int,
    counter: int,
    syncing: bool,
    synced: bool,
    pinned: bool)

  /** Files present in the extraction folder after unzipping, by path: their contents, or `None` when reading the file fails. */
  type Folder = map<string, Option<Data>>

  /** The foreign calls the import makes, as oracles. */
  datatype Environment = Environment(
    // SSZipArchive.isPasswordValidForArchive(atPath:password:error:)
    isPasswordValid: (string, string) -> bool,
    // the first caches directory of FileManager, as a path
    cachesDirectory: Option<string>,
    // SSZipArchive.unzipFile(atPath:toDestination:overwrite:password:) for an archive, a
    // destination and a password: the destination folder afterwards, or None when it throws
    unzip: (string, string, string) -> Option<Folder>,
    // JSONDecoder().decode([PasswordJson].self, from:), None when it throws
    decode: Data -> Option<seq<PasswordJson>>,
    // Password.getNewPrimaryKey() for the k-th record of the list
    newPrimaryKey: nat -> int,
    // whether RealmHelper.shared.getRealm() returns a realm for the k-th record of the list
    realmAvailable: nat -> bool)

  const PasswordIncorrect := "Password incorrect"
  const NotAnExportArchive := "Not a Raivo OTP export archive"
  const CouldNotParse := "Could not parse JSON data"
  const EmptyData := "Given JSON data is empty"

  const ExportFileName := "raivo-otp-export.json"
  const ExtractionFolderName := "raivo-otp-export"

  /** `URL.appendingPathComponent(_:)` on a path. */
  function AppendPathComponent(directory: string, component: string): string {
    directory + "/" + component
  }

  // ---------------------------------------------------------------------------
  // Reading the export entry

  /**
   * `readFileFromZip(atPath:fileName:password:)`: unzip the archive into a fixed folder of the
   * caches directory and read one entry. Any failure on the way yields nil. `unzip` returns the
   * folder as it is after extracting, so a file an earlier import left there counts as present:
   * "missing" means missing from the folder, not from the archive.
   */
  function ReadFileFromZip(env: Environment, zipPath: string, fileName: string, password: string): (data: Option<Data>)
    ensures env.cachesDirectory.None? ==> data.None?
    ensures env.cachesDirectory.Some? ==>
              var destination := AppendPathComponent(env.cachesDirectory.value, ExtractionFolderName);
              var filePath := AppendPathComponent(destination, fileName);
              var extracted := env.unzip(zipPath, destination, password);
              && (extracted.None? ==> data.None?)
              && (extracted.Some? && filePath !in extracted.value ==> data.None?)
              && (extracted.Some? && filePath in extracted.value ==> data == extracted.value[filePath])
  {
    match env.cachesDirectory
    case None => None
    case Some(caches) =>
      var destination := AppendPathComponent(caches, ExtractionFolderName);
      match env.unzip(zipPath, destination, password)
      case None => None
      case Some(folder) =>
        var filePath := AppendPathComponent(destination, fileName);
        if filePath !in folder then None
        else folder[filePath]
  }

  // ---------------------------------------------------------------------------
  // Mapping records

  /**
   * The `Password` built from one export record: text fields copied, numbers read with
   * `Int(text) ?? 0`, the pin flag with `Bool(text) ?? false`, and marked as waiting to be synced.
   */
  function ToPassword(item: PasswordJson, key: int): (p: Password)
    ensures p.id == key
    ensures && p.issuer == item.issuer && p.account == item.account
            && p.iconType == item.iconType && p.iconValue == item.iconValue
            && p.secret == item.secret && p.algorithm == item.algorithm && p.kind == item.kind
    ensures p.digits == if IsIntLiteral(item.digits) && InIntRange(LiteralValue(item.digits)) then LiteralValue(item.digits) else 0
    ensures p.timer == if IsIntLiteral(item.timer) && InIntRange(LiteralValue(item.timer)) then LiteralValue(item.timer) else 0
    ensures p.counter == if IsIntLiteral(item.counter) && InIntRange(LiteralValue(item.counter)) then LiteralValue(item.counter) else 0
    ensures p.pinned <==> item.pinned == "true"
    ensures p.syncing && !p.synced
  {
    Password(
      id := key,
      issuer := item.issuer,
      account := item.account,
      iconType := item.iconType,
      iconValue := item.iconValue,
      secret := item.secret,
      algorithm := item.algorithm,
      digits := ParseInt(item.digits).GetOr(0),
      kind := item.kind,
      timer := ParseInt(item.timer).GetOr(0),
      counter := ParseInt(item.counter).GetOr(0),
      syncing := true,
      synced := false,
      pinned := ParseBool(item.pinned).GetOr(false))
  }

  /** The records written for the first `n` items: one per item whose realm lookup succeeds, in list order. */
  function Imported(env: Environment, items: seq<PasswordJson>, n: nat): seq<Password>
    requires n <= |items|
  {
    if n == 0 then []
    else
      var k := n - 1;
      Imported(env, items, k) + (if env.realmAvailable(k) then [ToPassword(items[k], env.newPrimaryKey(k))] else [])
  }

  lemma {:induction false} ImportedAreUnsynced(env: Environment, items: seq<PasswordJson>, n: nat)
    requires n <= |items|
    ensures forall i :: 0 <= i < |Imported(env, items, n)| ==>
              Imported(env, items, n)[i].syncing && !Imported(env, items, n)[i].synced
  {
    if n > 0 {
      ImportedAreUnsynced(env, items, n - 1);
    }
  }

  /**
   * The positions, among the first `n` items, whose realm lookup succeeds: ascending, below
   * `n`, and holding every such position.
   */
  function AvailablePositions(env: Environment, n: nat): (ks: seq<nat>)
    ensures |ks| <= n
    ensures forall i :: 0 <= i < |ks| ==> ks[i] < n && env.realmAvailable(ks[i])
    ensures forall i, j :: 0 <= i < j < |ks| ==> ks[i] < ks[j]
    ensures forall k :: 0 <= k < n && env.realmAvailable(k) ==> k in ks
  {
    if n == 0 then []
    else AvailablePositions(env, n - 1) + (if env.realmAvailable(n - 1) then [n - 1] else [])
  }

  /**
   * The records written are exactly the items whose realm lookup succeeds, in list order: the
   * i-th record is built from the item at the i-th such position, with that position's key.
   */
  lemma {:induction false} ImportedAreAvailableItems(env: Environment, items: seq<PasswordJson>, n: nat)
    requires n <= |items|
    ensures |Imported(env, items, n)| == |AvailablePositions(env, n)|
    ensures forall i :: 0 <= i < |Imported(env, items, n)| ==>
              var k := AvailablePositions(env, n)[i];
              Imported(env, items, n)[i] == ToPassword(items[k], env.newPrimaryKey(k))
  {
    if n > 0 {
      ImportedAreAvailableItems(env, items, n - 1);
    }
  }

  /** As many records as items whose realm lookup succeeds, so never more than items, and exactly one per item when every lookup succeeds. */
  lemma {:induction false} ImportedCount(env: Environment, items: seq<PasswordJson>, n: nat)
    requires n <= |items|
    ensures |Imported(env, items, n)| == |AvailablePositions(env, n)| <= n
    ensures (forall k :: 0 <= k < n ==> env.realmAvailable(k)) ==> |Imported(env, items, n)| == n
  {
    if n > 0 {
      ImportedCount(env, items, n - 1);
    }
  }

  /** Every item whose realm lookup succeeds is written. */
  lemma ImportedContainsAvailable(env: Environment, items: seq<PasswordJson>, n: nat, k: nat)
    requires n <= |items| && k < n && env.realmAvailable(k)
    ensures ToPassword(items[k], env.newPrimaryKey(k)) in Imported(env, items, n)
  {
    ImportedAreAvailableItems(env, items, n);
    var ks := AvailablePositions(env, n);
    var i :| 0 <= i < |ks| && ks[i] == k;
    assert Imported(env, items, n)[i] == ToPassword(items[k], env.newPrimaryKey(k));
  }

  /** When every realm lookup succeeds, the available positions are simply 0, 1, ..., n - 1. */
  lemma {:induction false} AllPositionsAvailable(env: Environment, n: nat)
    requires forall k :: 0 <= k < n ==> env.realmAvailable(k)
    ensures |AvailablePositions(env, n)| == n
    ensures forall i :: 0 <= i < n ==> AvailablePositions(env, n)[i] == i
  {
    if n > 0 {
      AllPositionsAvailable(env, n - 1);
    }
  }

  /** When every realm lookup succeeds, the k-th record written is built from the k-th item. */
  lemma ImportedInListOrder(env: Environment, items: seq<PasswordJson>, n: nat, k: nat)
    requires n <= |items| && k < n
    requires forall j :: 0 <= j < n ==> env.realmAvailable(j)
    ensures |Imported(env, items, n)| == n
    ensures Imported(env, items, n)[k] == ToPassword(items[k], env.newPrimaryKey(k))
  {
    ImportedAreAvailableItems(env, items, n);
    AllPositionsAvailable(env, n);
  }

  // ---------------------------------------------------------------------------
  // Outcomes

  /** The message an import returns (`None` for success) and the store's records afterwards. */
  datatype Outcome = Outcome(message: Option<string>, records: seq<Password>)

  /** `importNewPasswords(_:)` on a store holding `before`. */
  function ImportNewPasswordsOutcome(env: Environment, data: Data, before: seq<Password>): Outcome {
    match env.decode(data)
    case None => Outcome(Some(CouldNotParse), before)
    case Some(items) =>
      if items == [] then Outcome(Some(EmptyData), before)
      else Outcome(None, before + Imported(env, items, |items|))
  }

  /** `importArchive(archiveFileURL:withPassword:)` on a store holding `before`. */
  function ImportArchiveOutcome(env: Environment, archivePath: string, password: string, before: seq<Password>): Outcome {
    if !env.isPasswordValid(archivePath, password) then Outcome(Some(PasswordIncorrect), before)
    else
      match ReadFileFromZip(env, archivePath, ExportFileName, password)
      case None => Outcome(Some(NotAnExportArchive), before)
      case Some(data) => ImportNewPasswordsOutcome(env, data, before)
  }

  /** A failed import returns one of its four messages and writes nothing; a successful one only appends records. */
  lemma FailureWritesNothing(env: Environment, archivePath: string, password: string, before: seq<Password>)
    ensures var o := ImportArchiveOutcome(env, archivePath, password, before);
            && (o.message.Some? ==> o.records == before)
            && (o.message.Some? ==> o.message.value in {PasswordIncorrect, NotAnExportArchive, CouldNotParse, EmptyData})
            && (o.message.None? ==> before <= o.records)
  {
  }

  /**
   * A wrong password is reported before anything else is tried: the outcome is the same
   * whatever the file system, the archive's content, the decoder or the store would do.
   */
  lemma PasswordCheckedFirst(env: Environment, other: Environment, archivePath: string, password: string, before: seq<Password>)
    requires !env.isPasswordValid(archivePath, password)
    requires other.isPasswordValid == env.isPasswordValid
    ensures ImportArchiveOutcome(env, archivePath, password, before) == Outcome(Some(PasswordIncorrect), before)
    ensures ImportArchiveOutcome(other, archivePath, password, before) == ImportArchiveOutcome(env, archivePath, password, before)
  {
  }

  /** Any archive that cannot be read (no caches directory, unzip failure, missing entry, read failure) is "Not a Raivo OTP export archive". */
  lemma UnreadableArchive(env: Environment, archivePath: string, password: string, before: seq<Password>)
    requires env.isPasswordValid(archivePath, password)
    requires ReadFileFromZip(env, archivePath, ExportFileName, password).None?
    ensures ImportArchiveOutcome(env, archivePath, password, before) == Outcome(Some(NotAnExportArchive), before)
  {
  }

  /** What appending the records of a decoded list to `before` gives: the written items in order, all unsynced. */
  predicate AppendsAvailableItems(env: Environment, items: seq<PasswordJson>, before: seq<Password>, after: seq<Password>) {
    var written := AvailablePositions(env, |items|);
    && before <= after
    && |after| == |before| + |written| <= |before| + |items|
    && (forall i :: 0 <= i < |written| ==>
          after[|before| + i] == ToPassword(items[written[i]], env.newPrimaryKey(written[i])))
    && (forall i :: |before| <= i < |after| ==> after[i].syncing && !after[i].synced)
    && ((forall k :: 0 <= k < |items| ==> env.realmAvailable(k)) ==>
          && |after| == |before| + |items|
          && forall k :: 0 <= k < |items| ==> after[|before| + k] == ToPassword(items[k], env.newPrimaryKey(k)))
  }

  lemma AppendImported(env: Environment, items: seq<PasswordJson>, before: seq<Password>)
    ensures AppendsAvailableItems(env, items, before, before + Imported(env, items, |items|))
  {
    var added := Imported(env, items, |items|);
    var after := before + added;
    var written := AvailablePositions(env, |items|);
    ImportedCount(env, items, |items|);
    ImportedAreAvailableItems(env, items, |items|);
    ImportedAreUnsynced(env, items, |items|);
    forall i | 0 <= i < |written|
      ensures after[|before| + i] == ToPassword(items[written[i]], env.newPrimaryKey(written[i]))
    {
      assert after[|before| + i] == added[i];
    }
    forall i | |before| <= i < |after|
      ensures after[i].syncing && !after[i].synced
    {
      assert after[i] == added[i - |before|];
    }
    if forall k :: 0 <= k < |items| ==> env.realmAvailable(k) {
      forall k | 0 <= k < |items|
        ensures after[|before| + k] == ToPassword(items[k], env.newPrimaryKey(k))
      {
        ImportedInListOrder(env, items, |items|, k);
        assert after[|before| + k] == added[k];
      }
    }
  }

  /** A readable entry that the decoder rejects is "Could not parse JSON data", with nothing written. */
  lemma UndecodableEntry(env: Environment, archivePath: string, password: string, before: seq<Password>)
    requires env.isPasswordValid(archivePath, password)
    requires ReadFileFromZip(env, archivePath, ExportFileName, password).Some?
    requires env.decode(ReadFileFromZip(env, archivePath, ExportFileName, password).value).None?
    ensures ImportArchiveOutcome(env, archivePath, password, before) == Outcome(Some(CouldNotParse), before)
  {
  }

  /** A readable entry that decodes to an empty list is "Given JSON data is empty", with nothing written. */
  lemma EmptyEntry(env: Environment, archivePath: string, password: string, before: seq<Password>)
    requires env.isPasswordValid(archivePath, password)
    requires ReadFileFromZip(env, archivePath, ExportFileName, password).Some?
    requires env.decode(ReadFileFromZip(env, archivePath, ExportFileName, password).value) == Some([])
    ensures ImportArchiveOutcome(env, archivePath, password, before) == Outcome(Some(EmptyData), before)
  {
  }

  /**
   * An import succeeds exactly when the password is valid, the entry is read and it decodes to
   * a non-empty list, however many realm lookups fail. It then appends one record per decoded
   * item whose realm lookup succeeds, in list order, all marked as waiting to be synced; so one
   * per item when every lookup succeeds.
   */
  lemma SuccessfulImport(env: Environment, archivePath: string, password: string, before: seq<Password>)
    ensures var read := ReadFileFromZip(env, archivePath, ExportFileName, password);
            ImportArchiveOutcome(env, archivePath, password, before).message.None? <==>
              && env.isPasswordValid(archivePath, password)
              && read.Some?
              && env.decode(read.value).Some?
              && env.decode(read.value).value != []
    ensures var o := ImportArchiveOutcome(env, archivePath, password, before);
            o.message.None? ==>
              var items := env.decode(ReadFileFromZip(env, archivePath, ExportFileName, password).value).value;
              AppendsAvailableItems(env, items, before, o.records)
  {
    if ImportArchiveOutcome(env, archivePath, password, before).message.None? {
      var data := ReadFileFromZip(env, archivePath, ExportFileName, password).value;
      var items := env.decode(data).value;
      AppendImported(env, items, before);
    }
  }

  /** A decoded record whose `digits` is not a number is stored with 0 digits; "6" gives 6. */
  lemma NumericFallback(item: PasswordJson, key: int)
    requires item.digits == "abc" && item.timer == "30"
    ensures ToPassword(item, key).digits == 0
    ensures ToPassword(item, key).timer == 30
  {
    ParseIntExamples();
  }

  /**
   * One GitHub record in a valid archive, with every realm lookup succeeding: the import
   * reports success and the store holds one record with issuer "GitHub", 6 digits and a
   * 30-second timer.
   */
  lemma GitHubScenario(payload: Data)
    ensures var item := PasswordJson(
              pinned := "false", iconValue := "", secret := "ABC123", issuer := "GitHub",
              counter := "0", account := "me", iconType := "none", algorithm := "SHA1",
              kind := "totp", digits := "6", timer := "30");
            var env := Environment(
              isPasswordValid := (path, password) => path == "export.zip" && password == "hunter2",
              cachesDirectory := Some("/caches"),
              unzip := (zip, destination, password) => Some(map[AppendPathComponent(destination, ExportFileName) := Some(payload)]),
              decode := data => if data == payload then Some([item]) else None,
              newPrimaryKey := k => k + 1,
              realmAvailable := k => true);
            var o := ImportArchiveOutcome(env, "export.zip", "hunter2", []);
            && o.message.None?
            && |o.records| == 1
            && o.records[0].issuer == "GitHub"
            && o.records[0].digits == 6
            && o.records[0].timer == 30
            && o.records[0].counter == 0
            && !o.records[0].pinned
  {
    ParseIntExamples();
    assert "0"[..0] == [];
    assert Magnitude("0") == "0";
  }

  // ---------------------------------------------------------------------------
  // The store and the import in place

  /** The Realm database's `Password` objects, in insertion order. */
  class PasswordStore {
    var records: seq<Password>

    constructor (records: seq<Password>)
      ensures this.records == records
    {
      this.records := records;
    }

    /** `realm.write { realm.add(password) }`. */
    method Add(password: Password)
      modifies this
      ensures records == old(records) + [password]
    {
      records := records + [password];
    }
  }

  method ImportNewPasswords(env: Environment, store: PasswordStore, data: Data) returns (message: Option<string>)
    modifies store
    ensures Outcome(message, store.records) == ImportNewPasswordsOutcome(env, data, old(store.records))
  {
    var jsonData := env.decode(data);
    if jsonData.None? {
      return Some(CouldNotParse);
    }
    var items := jsonData.value;
    if items == [] {
      return Some(EmptyData);
    }
    for k := 0 to |items|
      invariant store.records == old(store.records) + Imported(env, items, k)
    {
      var item := items[k];
      var password := ToPassword(item, env.newPrimaryKey(k));
      if env.realmAvailable(k) {
        store.Add(password);
      }
    }
    return None;
  }

  method ImportArchive(env: Environment, store: PasswordStore, archivePath: string, password: string) returns (message: Option<string>)
    modifies store
    ensures Outcome(message, store.records) == ImportArchiveOutcome(env, archivePath, password, old(store.records))
  {
    if !env.isPasswordValid(archivePath, password) {
      return Some(PasswordIncorrect);
    }
    var data := ReadFileFromZip(env, archivePath, ExportFileName, password);
    if data.None? {
      return Some(NotAnExportArchive);
    }
    var result := ImportNewPasswords(env, store, data.value);
    if result.Some? {
      return result;
    }
    return None;
  }
}
