/** `generateMetadataJSON` of src/helpers/generate-metadata.ts: a field-by-field
    copy of the input record into the metadata document. */
module GenerateMetadata {
  import opened Text

  /** `type?: 0 | 1` */
  datatype AssetType = Type0 | Type1

  /** `CertificateMetadataInput`; the two optional fields are Options. */
  datatype MetadataInput = MetadataInput(
    name: string,
    description: string,
    issuerName: string,
    issuerWallet: string,
    issueDate: string,
    fileUrl: string,
    previewImageUrl: string,
    hash: Option<string>,
    assetType: Option<AssetType>
  )

  /** The object literal the helper returns: exactly these nine keys. */
  datatype MetadataJson = MetadataJson(
    name: string,
    description: string,
    issuerName: string,
    issuerWallet: string,
    issueDate: string,
    fileUrl: string,
    previewImageUrl: string,
    hash: Option<string>,
    assetType: Option<AssetType>
  )

  function GenerateMetadataJson(data: MetadataInput): (m: MetadataJson)
    ensures m.name == data.name && m.description == data.description
    ensures m.issuerName == data.issuerName && m.issuerWallet == data.issuerWallet
    ensures m.issueDate == data.issueDate
    ensures m.fileUrl == data.fileUrl && m.previewImageUrl == data.previewImageUrl
    ensures m.hash == data.hash && m.assetType == data.assetType
  {
    MetadataJson(data.name, data.description, data.issuerName, data.issuerWallet, data.issueDate,
      data.fileUrl, data.previewImageUrl, data.hash, data.assetType)
  }

  /** Reading the document's keys back into an input record. */
  function InputOf(m: MetadataJson): MetadataInput {
    MetadataInput(m.name, m.description, m.issuerName, m.issuerWallet, m.issueDate,
      m.fileUrl, m.previewImageUrl, m.hash, m.assetType)
  }

  /** The projection loses nothing and invents nothing: it is a bijection. */
  lemma ProjectionIsBijective(data: MetadataInput, m: MetadataJson)
    ensures InputOf(GenerateMetadataJson(data)) == data
    ensures GenerateMetadataJson(InputOf(m)) == m
  {
  }

  /** An absent optional field stays absent. */
  lemma AbsentStaysAbsent(data: MetadataInput)
    requires data.hash.None? && data.assetType.None?
    ensures GenerateMetadataJson(data).hash.None? && GenerateMetadataJson(data).assetType.None?
  {
  }
}
