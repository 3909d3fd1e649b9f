/** Record shapes of the file data context (src/contexts/FileDataContext.tsx),
    together with the `errorDescription` field the file page's own data carries. */
module FileData {

  datatype MismatchReason = MismatchReason(
    category: string,
    count: nat,
    exampleLine: int,
    description: string)

  datatype FileRecord = FileRecord(
    fileNo: string,
    client: string,
    receivedDate: string,
    fileCount: nat,
    facetsCount: nat,
    activeFile: nat,
    activeFacets: nat,
    termedFile: nat,
    termedFacets: nat,
    futureFile: nat,
    futureFacets: nat,
    errorCount: nat,
    errorDescription: string,
    mismatchReason: seq<MismatchReason>,
    fileStatus: string)
}
