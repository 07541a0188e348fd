/** The entities the wizard passes between its steps (types.ts). */
module Types {

  datatype Option<+T> = None | Some(value: T)

  /** Photo ids are opaque strings made up on the client. */
  type Id = string

  /** A file the user selected. Only its size in bytes is observable here. */
  datatype File = File(size: nat)

  /** One uploaded photo. `hasFace == None` is the absent (undefined) field:
      detection has not reported for this photo yet. The preview URL is a
      browser resource and is not modelled. */
  datatype Photo = Photo(id: Id, file: File, rotation: nat, isValidating: bool, hasFace: Option<bool>)

  /** One successful generation; `originalPhotoId` points back at the source photo. */
  datatype GeneratedPhoto = GeneratedPhoto(id: Id, url: string, originalPhotoId: Id, templateName: string)

  /** Catalog entries; only the fields the core reads are kept. */
  datatype TemplateScene = TemplateScene(id: string, name: string)
  datatype TemplateStyle = TemplateStyle(id: string, name: string)

  /** The five screens of the wizard. */
  datatype AppStep = HOME | UPLOAD | TEMPLATE | GENERATING | RESULT
}
