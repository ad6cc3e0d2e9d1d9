/** The directory of pickle files the accounts are saved to, as an abstract
    store: one record per name (the file `<name>.pkl`). Serialisation itself
    is not modelled; a record is the object's state as a value. */
module Files {
  import opened Outcomes

  class Directory<R> {
    var files: map<string, R>

    constructor (files: map<string, R>)
      ensures this.files == files
    {
      this.files := files;
    }

    /** `open(f"{name}.pkl", "wb")` then `dump`: creates or overwrites. */
    method Dump(name: string, record: R)
      modifies this
      ensures files == old(files)[name := record]
    {
      files := files[name := record];
    }

    /** `open(f"{name}.pkl", "rb")` then `load`. */
    method Open(name: string) returns (r: Result<R>)
      ensures r.Ok? <==> name in files
      ensures r.Ok? ==> r.value == files[name]
      ensures r.Err? ==> r.error == FileNotFound
    {
      if name in files {
        r := Ok(files[name]);
      } else {
        r := Err(FileNotFound);
      }
    }

    /** `os.remove(f"{name}.pkl")`. */
    method Remove(name: string) returns (o: Outcome)
      modifies this
      ensures o.Pass? <==> name in old(files)
      ensures o.Fail? ==> o.error == FileNotFound
      ensures files == old(files) - {name}
    {
      if name in files {
        files := files - {name};
        o := Pass;
      } else {
        o := Fail(FileNotFound);
      }
    }
  }
}
