/** The answer of every upload endpoint. */
module Upload {
  datatype UploadResponse = UploadResponse(status: string)

  const Accepted: UploadResponse := UploadResponse("success")
  const WrongToken: UploadResponse := UploadResponse("Incorrect auth token")
  const WrongChain: UploadResponse := UploadResponse("Incorrect chain")
}
