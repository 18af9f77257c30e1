/** An in-memory secret store with the two capabilities the core uses:
    `read(path)` and `list(folder)`. */
module SecretStore {
  import opened Wrappers
  import opened Errors

  datatype Vault = Vault(secrets: map<string, string>, folders: map<string, set<string>>)
  {
    /** The secret stored at `path`, or a failure when there is none. */
    function Read(path: string): (r: Result<string, Error>)
      ensures r.Success? <==> path in secrets
      ensures r.Success? ==> r.value == secrets[path]
      ensures r.Failure? ==> r.error == ReadFailed(path)
    {
      if path in secrets then Success(secrets[path]) else Failure(ReadFailed(path))
    }

    /** The names in `folder`, or a failure when it cannot be listed. */
    function List(folder: string): (r: Result<set<string>, Error>)
      ensures r.Success? <==> folder in folders
      ensures r.Success? ==> r.value == folders[folder]
      ensures r.Failure? ==> r.error == ListFailed(folder)
    {
      if folder in folders then Success(folders[folder]) else Failure(ListFailed(folder))
    }
  }

  /** The path of the entry `name` inside `folder`. */
  function Entry(folder: string, name: string): string
  {
    folder + "/" + name
  }

  /** A store whose listings agree with its reads: a listable folder names
      exactly the entries under it that can be read. */
  ghost predicate Consistent(v: Vault)
  {
    forall folder, name ::
      folder in v.folders ==> (name in v.folders[folder] <==> Entry(folder, name) in v.secrets)
  }
}
