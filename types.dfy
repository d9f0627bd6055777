/** The shared records of the application's type declarations. */
module Types {
  import opened Wrappers

  /** `GeminiInput`: the pasted text and an optional base64 image. */
  datatype GeminiInput = GeminiInput(text: string, image: Option<string>)

  /** `HeatmapPoint`: a weighted secondary location, with the fields the map reads. */
  datatype HeatmapPoint = HeatmapPoint(lat: real, lng: real, weight: real)

  /** JavaScript truthiness of an optional string: present and not empty. */
  predicate Truthy(s: Option<string>) {
    s.Some? && s.value != ""
  }
}
