// The row types of core/files/model.go and the values that travel between them.
module Rows {
  datatype Option<+T> = None | Some(value: T)

  datatype Result<+T, +E> = Ok(value: T) | Err(error: E)

  newtype Byte = x: int | 0 <= x < 256

  type Bytes = seq<Byte>

  // The three values of upload_status.
  datatype Status = Uploading | Failed | Completed

  // A row of file_metadatas. `rowid` is the insertion position of the row; it
  // stands for created_at, which no statement ever changes.
  datatype FileMetadata = FileMetadata(
    id: string,
    userId: string,
    fileName: string,
    fileSize: int,
    fileType: string,
    fileHash: string,
    nChunks: int,
    current: bool,
    status: Status,
    prevId: Option<string>,
    endDate: Option<int>,
    rowid: nat)

  // A row of user_files. The table has no key, so rows may repeat a chunk.
  datatype UserFile = UserFile(
    userId: string,
    fileId: string,
    chunkId: int,
    blobUrl: string,
    chunkHash: string,
    nextChunkId: Option<int>)

  // A row of tokens with resource type "stream".
  datatype StreamToken = StreamToken(resourceId: string, userId: string)

  // A completion message, as it is queued.
  datatype CacheMetadata = CacheMetadata(userId: string, prevId: Option<string>, deviceId: string, id: string)

  // A row of the join of file_metadatas with user_files.
  datatype FilesWithChunks = FilesWithChunks(file: FileMetadata, chunk: UserFile)

  // What a FileInfoResponse copies from the first row of its file.
  datatype Header = Header(
    id: string,
    name: string,
    hash: string,
    size: int,
    fileType: string,
    current: bool,
    nChunks: int,
    userId: string)

  function HeaderOf(f: FileMetadata): Header {
    Header(f.id, f.fileName, f.fileHash, f.fileSize, f.fileType, f.current, f.nChunks, f.userId)
  }

  // The value of a FileInfoResponse object.
  datatype FileView = FileView(header: Header, chunks: map<string, FilesWithChunks>)
}
