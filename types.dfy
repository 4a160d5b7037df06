/** The phases of the holiday animation (types.ts). */
module Types {

  /** CHAOS: particles scattered as a nebula; MORPH: flying into the tree;
      TREE: the tree is formed; FINISHED: the tree is formed and the greeting shows. */
  datatype AnimationState = CHAOS | MORPH | TREE | FINISHED

  /** The three states in which the scene aims at the formed tree. Both the
      morph controller and the camera rig branch on exactly this set. */
  predicate Formed(s: AnimationState)
  {
    s == MORPH || s == TREE || s == FINISHED
  }
}
