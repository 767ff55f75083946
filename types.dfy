/** The records shared by the components (types.ts), plus the three particle kinds. */
module Types {

  datatype ParticleKind = Proton | Neutron | Electron

  /** One row of the element table: atomic number, symbol, name, standard neutron count and descriptive text. */
  datatype ElementData = ElementData(
    z: nat,
    symbol: string,
    name: string,
    mass: real,
    neutrons: nat,
    state: string,
    category: string,
    physical: string,
    natural: string,
    applications: string)

  datatype StudentInfo = StudentInfo(studentId: string, studentName: string, group: string)

  /** What a finished attempt reports: the built counts, the score in percent and the seconds taken. */
  datatype BuildingResult = BuildingResult(
    protons: nat,
    neutrons: nat,
    electrons: nat,
    score: int,
    timeTaken: int,
    elementName: string)

  /** A finished attempt with the student's name and group and the date it was recorded. */
  datatype LeaderboardEntry = LeaderboardEntry(
    protons: nat,
    neutrons: nat,
    electrons: nat,
    score: int,
    timeTaken: int,
    elementName: string,
    studentName: string,
    group: string,
    date: string)

  datatype View = Login | Builder | Results
}
