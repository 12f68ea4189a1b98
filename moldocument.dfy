/**
 * MolDocument (moldocument.h): what a parsed calculation output holds. The
 * volume map is not filled by the output parser and is not modelled.
 */
module MolDocuments {
  import opened MolStructs

  datatype Vec3 = Vec3(x: real, y: real, z: real)

  /** MolDocument::MolecularOrbital. */
  datatype Orbital = Orbital(id: string, occupancy: real, energy: real, symmetry: string)

  /** MolDocument::Frequency: wave number, IR intensity and one displacement per atom. */
  datatype Frequency = Frequency(wavenum: real, intensity: real, eigenvector: seq<Vec3>)

  /** The molecule, orbitals, frequencies and the calculatedProperties map. */
  datatype Doc = Doc(molecule: Mol, orbitals: seq<Orbital>, frequencies: seq<Frequency>, props: map<string, string>)

  /** MolDocument(): nothing parsed yet. */
  const EmptyDoc := Doc(Mol([], []), [], [], map[])
}
