/** The blobs that the upload step (UploadFiles) puts into storage: one container
    and a fixed list of file names. Only the data is modelled, not the transfer. */
module InputFiles {

  /** Name of the blob container the input files are uploaded to. */
  const InputContainer: string := "inputfiles"

  /** The files uploaded, in upload order; each becomes a blob of the same name. */
  const InputFileNames: seq<string> := ["taskdata0.txt", "taskdata1.txt", "taskdata2.txt"]

  /** The URL of blob `name` in `container` of the storage account at `accountUrl`. */
  function BlobUrl(accountUrl: string, container: string, name: string): (url: string)
  {
    accountUrl + "/" + container + "/" + name
  }

  /** True when `name` is a blob of the input container that the upload step provides. */
  predicate IsUploaded(container: string, name: string)
  {
    container == InputContainer && name in InputFileNames
  }

  /** The upload list names every file once, so no blob is uploaded twice. */
  lemma InputFileNamesDistinct(i: nat, j: nat)
    requires i < |InputFileNames| && j < |InputFileNames| && i != j
    ensures InputFileNames[i] != InputFileNames[j]
  {
  }
}
